/** Which steps of a lock-free buffer are safe, exactly: when the generation may
    be read for a claimed block, and when a reset may be completed. */
module LockFreeBufferResets {
  import opened Alignment
  import opened Options
  import opened Sequencing
  import opened LockFreeBuffer
  import opened LockFreeBufferSafety

  // ----- continuations -----

  /** One action of a run, where it is possible and guarded. */
  function TryNext(w: World, a: Action): Option<World> {
    if Shaped(w) && Enabled(w, a) then Some(Next(w, a)) else None
  }

  /** One action of the code, guarded or not. */
  function TryCode(w: World, a: Action): Option<World> {
    if Shaped(w) && Possible(w, a) then Some(Next(w, a)) else None
  }

  /** Whatever happens from `w` on is safe. */
  ghost predicate AlwaysSafe(w: World) {
    forall acts, w' :: Leads(TryNext, w, acts, w') ==> Safe(w')
  }

  lemma {:induction false} LeadsKeepsInv(w: World, acts: seq<Action>, w': World)
    requires Inv(w) && Leads(TryNext, w, acts, w')
    ensures Inv(w')
    decreases acts
  {
    if acts != [] {
      NextKeepsInv(w, acts[0]);
      LeadsKeepsInv(Next(w, acts[0]), acts[1..], w');
    }
  }

  lemma InvAlwaysSafe(w: World)
    requires Inv(w)
    ensures AlwaysSafe(w)
  {
    forall acts, w' | Leads(TryNext, w, acts, w') ensures Safe(w') {
      LeadsKeepsInv(w, acts, w');
      InvSafe(w');
    }
  }

  // ----- grants from the wrong era -----

  /** The last grant is of a block that was claimed in another era than that of
      the generation under which it was granted. */
  ghost predicate OffGrant(w: World, b: Bid) {
    && b in w.bufs && w.log != []
    && var g := w.log[|w.log| - 1];
       g.buf == b && g.generation == w.bufs[b].generation && g.carved != g.generation
       && g.start + g.layout.size <= LOCKFREE_BUFFER_SIZE
  }

  lemma OffGrantIsUnsafe(w: World, b: Bid)
    requires OffGrant(w, b)
    ensures !Safe(w)
  {
    assert !SafeGrant(w.log[|w.log| - 1]);
  }

  /** `u` is idle and empty-handed, and nothing has been claimed from `b` since a
      reset that is complete. */
  ghost predicate Bystander(w: World, u: Tid, b: Bid) {
    && Shaped(w) && u in w.threads && b in w.bufs
    && w.threads[u] == Thread(EMPTY_SLAB, 0, Idle)
    && w.bufs[b].offset == 0 && w.bufs[b].hasMemory && Era(w.shadows[b]) == w.bufs[b].generation
  }

  const BYTE := Layout(1, 1)

  /** `t` has installed a block of another era under the present generation. */
  ghost predicate Primed(w: World, t: Tid, b: Bid) {
    && Shaped(w) && b in w.bufs && t in w.threads && w.threads[t].pc.Idle?
    && var slab := w.threads[t].slab;
       && slab == Region(b, slab.start, slab.end, w.bufs[b].generation)
       && slab.start < slab.end <= LOCKFREE_BUFFER_SIZE
       && w.threads[t].carved != w.bufs[b].generation
  }

  /** Its next request, of one byte, is served from that block. */
  lemma PrimedServes(w: World, t: Tid, u: Tid, b: Bid) returns (acts: seq<Action>, w': World)
    requires Primed(w, t, b) && t != u
    ensures Leads(TryNext, w, acts, w') && OffGrant(w', b) && w'.log[|w'.log| - 1].layout == BYTE
    ensures Bystander(w, u, b) ==> Bystander(w', u, b)
  {
    var w1 := Next(w, Start(t, b, BYTE));
    var w2 := Next(w1, ReadGeneration(t));
    AlignUpOfMultiple(w.threads[t].slab.start, 1);
    w' := Next(w2, TrySlab(t));
    var start := w.threads[t].slab.start;
    RepaintTags(w.shadows[b], w.threads[t].carved, start, start + 1, Granted(|w.log|), 0);
    acts := [Start(t, b, BYTE), ReadGeneration(t), TrySlab(t)];
    ThreeSteps(TryNext, w, acts[0], w1, acts[1], w2, acts[2], w');
  }

  /** `t` is about to install a block of another era under the present generation. */
  ghost predicate Misled(w: World, t: Tid, b: Bid) {
    && Shaped(w) && b in w.bufs && t in w.threads && w.threads[t].pc.Installing?
    && var pc := w.threads[t].pc;
       && pc.buf == b && pc.gen == w.bufs[b].generation && pc.epoch != pc.gen
       && pc.start < pc.end <= LOCKFREE_BUFFER_SIZE
  }

  /** It is served from the block, now or at its next request. */
  lemma MisledInstalls(w: World, t: Tid, u: Tid, b: Bid)
    requires Misled(w, t, b) && t != u
    ensures Enabled(w, Install(t))
    ensures var w' := Next(w, Install(t));
            && ((OffGrant(w', b) && w'.log[|w'.log| - 1].layout == w.threads[t].pc.layout) || Primed(w', t, b))
            && (Bystander(w, u, b) ==> Bystander(w', u, b))
  {
    var pc := w.threads[t].pc;
    RepaintTags(w.shadows[b], pc.epoch, pc.start, pc.end, Slab(t), 0);
  }

  lemma MisledServed(w: World, t: Tid, u: Tid, b: Bid) returns (acts: seq<Action>, w': World)
    requires Misled(w, t, b) && t != u
    ensures Leads(TryNext, w, acts, w') && OffGrant(w', b)
    ensures w.threads[t].pc.layout.size > 0 ==> w'.log[|w'.log| - 1].layout.size > 0
    ensures Bystander(w, u, b) ==> Bystander(w', u, b)
  {
    MisledInstalls(w, t, u, b);
    var w1 := Next(w, Install(t));
    if Primed(w1, t, b) {
      acts, w' := PrimedServes(w1, t, u, b);
      LeadsFrom(TryNext, w, Install(t), w1, acts, w');
      acts := [Install(t)] + acts;
    } else {
      acts, w' := [Install(t)], w1;
      OneStep(TryNext, w, Install(t), w1);
    }
  }

  // ----- a harmful second store -----

  /** A thread that has read the old generation is served from its old slab. */
  lemma StaleSlabServes(w: World, t: Tid, u: Tid, b: Bid)
    requires Inv(w) && t in w.threads && u in w.threads && w.threads[u].pc == Resetting(b)
    requires w.threads[t].pc.GenRead? && b in w.bufs && Harmful(w.threads[t], b, w.bufs[b].generation)
    ensures var w1 := BumpNext(w, u);
            && Shaped(w1) && Enabled(w1, TrySlab(t))
            && var w2 := Next(w1, TrySlab(t));
               && OffGrant(w2, b) && w2.log[|w2.log| - 1].layout == w.threads[t].pc.layout
               && (Bystander(w1, u, b) ==> Bystander(w2, u, b))
  {
    assert PcOk(w, t) && SlabOk(w, t);
    var w1 := BumpNext(w, u);
    var start := w.threads[t].slab.TryAlloc(w.threads[t].pc.layout).1.value;
    RepaintTags(w1.shadows[b], w.threads[t].carved, start, start + w.threads[t].pc.layout.size, Granted(|w.log|), 0);
  }

  /** A thread that has read the old generation installs its old block and is
      served from it. */
  lemma StaleBlockServes(w: World, t: Tid, u: Tid, b: Bid)
    requires Inv(w) && t in w.threads && u in w.threads && w.threads[u].pc == Resetting(b)
    requires w.threads[t].pc.Installing? && b in w.bufs && Harmful(w.threads[t], b, w.bufs[b].generation)
    ensures var w1 := BumpNext(w, u);
            && Shaped(w1) && Enabled(w1, Install(t))
            && var w2 := Next(w1, Install(t));
               && OffGrant(w2, b) && w2.log[|w2.log| - 1].layout == w.threads[t].pc.layout
               && (Bystander(w1, u, b) ==> Bystander(w2, u, b))
  {
    assert PcOk(w, t);
  }

  /** A thread that holds an old block reads the new generation for it. */
  lemma ClaimIsMisled(w: World, t: Tid, u: Tid, b: Bid)
    requires Inv(w) && t in w.threads && u in w.threads && w.threads[u].pc == Resetting(b)
    requires w.threads[t].pc.Claimed? && b in w.bufs && Harmful(w.threads[t], b, w.bufs[b].generation)
    ensures var w1 := BumpNext(w, u);
            && Shaped(w1) && Enabled(w1, ReadGenerationAgain(t))
            && var w2 := Next(w1, ReadGenerationAgain(t));
               Misled(w2, t, b) && (Bystander(w1, u, b) ==> Bystander(w2, u, b))
  {
    assert PcOk(w, t);
    BlockSizeBounds(w.threads[t].pc.layout.size);
  }

  /** A second store that finds thread `t` harmful lets it be served from before
      the reset. */
  lemma HarmfulBump(w: World, t: Tid, u: Tid, b: Bid) returns (acts: seq<Action>, w': World)
    requires Inv(w) && t in w.threads && u in w.threads && w.threads[u].pc == Resetting(b)
    requires b in w.bufs && Harmful(w.threads[t], b, w.bufs[b].generation)
    ensures Leads(TryNext, BumpNext(w, u), acts, w') && OffGrant(w', b)
    ensures w.threads[t].pc.layout.size > 0 ==> w'.log[|w'.log| - 1].layout.size > 0
    ensures Bystander(BumpNext(w, u), u, b) ==> Bystander(w', u, b)
  {
    var w1 := BumpNext(w, u);
    if w.threads[t].pc.GenRead? {
      StaleSlabServes(w, t, u, b);
      acts, w' := [TrySlab(t)], Next(w1, TrySlab(t));
      OneStep(TryNext, w1, TrySlab(t), w');
    } else if w.threads[t].pc.Installing? {
      StaleBlockServes(w, t, u, b);
      acts, w' := [Install(t)], Next(w1, Install(t));
      OneStep(TryNext, w1, Install(t), w');
    } else {
      acts, w' := StaleClaimServed(w, t, u, b);
    }
  }

  lemma StaleClaimServed(w: World, t: Tid, u: Tid, b: Bid) returns (acts: seq<Action>, w': World)
    requires Inv(w) && t in w.threads && u in w.threads && w.threads[u].pc == Resetting(b)
    requires w.threads[t].pc.Claimed? && b in w.bufs && Harmful(w.threads[t], b, w.bufs[b].generation)
    ensures Leads(TryNext, BumpNext(w, u), acts, w') && OffGrant(w', b)
    ensures w.threads[t].pc.layout.size > 0 ==> w'.log[|w'.log| - 1].layout.size > 0
    ensures Bystander(BumpNext(w, u), u, b) ==> Bystander(w', u, b)
  {
    ClaimIsMisled(w, t, u, b);
    var w1 := BumpNext(w, u);
    var w2 := Next(w1, ReadGenerationAgain(t));
    acts, w' := MisledServed(w2, t, u, b);
    LeadsFrom(TryNext, w1, ReadGenerationAgain(t), w2, acts, w');
    acts := [ReadGenerationAgain(t)] + acts;
  }

  // ----- the exact condition -----

  /** Reading the generation for a block claimed between the two stores of a
      reset, before the second store. */
  lemma EarlyReadIsMisled(w: World, t: Tid)
    requires Inv(w) && Possible(w, ReadGenerationAgain(t)) && !Guarded(w, ReadGenerationAgain(t))
    ensures Misled(Next(w, ReadGenerationAgain(t)), t, w.threads[t].pc.buf)
  {
    assert PcOk(w, t);
    BlockSizeBounds(w.threads[t].pc.layout.size);
  }

  lemma UnguardedIsUnsafe(w: World, a: Action) returns (acts: seq<Action>, w': World)
    requires Inv(w) && Possible(w, a) && !Guarded(w, a)
    ensures Leads(TryNext, Next(w, a), acts, w') && !Safe(w')
  {
    var b := w.threads[a.t].pc.buf;
    if a.ReadGenerationAgain? {
      EarlyReadIsMisled(w, a.t);
      acts, w' := MisledServed(Next(w, a), a.t, a.t + 1, b);
    } else {
      var t :| t in w.threads && Harmful(w.threads[t], b, w.bufs[b].generation);
      acts, w' := HarmfulBump(w, t, a.t, b);
    }
    OffGrantIsUnsafe(w', b);
  }

  /** In every reachable state, a step of the code keeps every continuation safe
      if and only if it is guarded.  Only two kinds of step are ever unguarded:
      reading the generation for a block claimed since a store of zero to the
      offset whose increment of the generation is still to come; and that
      increment, while a thread holds a block whose generation it has not read,
      or is about to be served from a block or slab of the one it has read. */
  lemma StepIsSafeIffGuarded(w: World, a: Action)
    requires Inv(w) && Possible(w, a)
    ensures Guarded(w, a) <==> AlwaysSafe(Next(w, a))
  {
    if Guarded(w, a) {
      NextKeepsInv(w, a);
      InvAlwaysSafe(Next(w, a));
    } else {
      var acts, w' := UnguardedIsUnsafe(w, a);
    }
  }

  // ----- resets as the documentation asks for them -----

  /** No call is under way on a buffer that is being reset. */
  ghost predicate QuietWhileResetting(w: World) {
    forall t :: t in w.threads && w.threads[t].pc.Resetting? ==> Quiescent(w, w.threads[t].pc.buf)
  }

  lemma QuietIsGuarded(w: World, a: Action)
    requires Inv(w) && Possible(w, a) && QuietWhileResetting(w)
    ensures Guarded(w, a)
  {
    if a.ReadGenerationAgain? {
      var b := w.threads[a.t].pc.buf;
      assert PcOk(w, a.t) && PendingOk(w, b);
      assert Pending(w.threads, b) == {};
    }
  }

  /** An interleaving of the code, whether its steps are guarded or not. */
  ghost predicate IsCodeRun(trace: seq<World>, acts: seq<Action>) {
    && |trace| == |acts| + 1
    && Init(trace[0])
    && forall i :: 0 <= i < |acts| ==> TryCode(trace[i], acts[i]) == Some(trace[i + 1])
  }

  lemma {:induction false} QuietRunKeepsInv(trace: seq<World>, acts: seq<Action>, i: nat)
    requires IsCodeRun(trace, acts) && i <= |acts|
    requires forall j :: 0 <= j < |acts| ==> QuietWhileResetting(trace[j])
    ensures Inv(trace[i])
  {
    if i == 0 {
      InitInv(trace[0]);
    } else {
      QuietRunKeepsInv(trace, acts, i - 1);
      assert TryCode(trace[i - 1], acts[i - 1]) == Some(trace[i]);
      QuietIsGuarded(trace[i - 1], acts[i - 1]);
      NextKeepsInv(trace[i - 1], acts[i - 1]);
    }
  }

  /** An interleaving in which no call is under way on a buffer between the two
      stores of its resets obeys the guards, and so is safe throughout. */
  lemma QuietRunIsSafe(trace: seq<World>, acts: seq<Action>)
    requires IsCodeRun(trace, acts)
    requires forall j :: 0 <= j < |acts| ==> QuietWhileResetting(trace[j])
    ensures IsRun(trace, acts)
    ensures forall i :: 0 <= i <= |acts| ==> Safe(trace[i])
  {
    forall i | 0 < i < |trace| ensures Steps(trace, acts, i) {
      QuietRunKeepsInv(trace, acts, i - 1);
      assert TryCode(trace[i - 1], acts[i - 1]) == Some(trace[i - 1 + 1]);
      QuietIsGuarded(trace[i - 1], acts[i - 1]);
    }
    forall i | 0 <= i <= |acts| ensures Safe(trace[i]) {
      QuietRunKeepsInv(trace, acts, i);
      InvSafe(trace[i]);
    }
  }

  // ----- two grants of the same bytes -----

  const WIDE := Layout(1024, 1)

  /** `u` is idle, its slab has no room for a wide request, and `offset` bytes
      of era `era` are claimed. */
  ghost predicate Solo(w: World, u: Tid, b: Bid, offset: nat, era: nat) {
    && Shaped(w) && u in w.threads && b in w.bufs && w.bufs[b].hasMemory
    && w.bufs[b].offset == offset && Era(w.shadows[b]) == era
    && w.threads[u].pc.Idle? && (w.threads[u].slab.base.None? || w.threads[u].slab.offset == w.threads[u].slab.end)
  }

  /** Positions of a request of `u` that has the buffer to itself. */
  ghost predicate During(w: World, w0: World, u: Tid, b: Bid, offset: nat, era: nat, pc: Pc) {
    && Shaped(w) && u in w.threads && w.threads[u].pc == pc
    && b in w.bufs && b in w0.bufs && w.bufs[b].hasMemory && w.bufs[b].offset == offset
    && Era(w.shadows[b]) == era
    && w.bufs[b].generation == w0.bufs[b].generation && w.log == w0.log
  }

  lemma SoloEnters(w: World, u: Tid, b: Bid, o: nat, e: nat) returns (w': World)
    requires Solo(w, u, b, o, e)
    ensures Leads(TryNext, w, [Start(u, b, WIDE), ReadGeneration(u), TrySlab(u)], w')
    ensures During(w', w, u, b, o, e, Refilling(b, WIDE, 0))
  {
    var w1 := Next(w, Start(u, b, WIDE));
    var w2 := Next(w1, ReadGeneration(u));
    AlignUpOfMultiple(w.threads[u].slab.offset, 1);
    w' := Next(w2, TrySlab(u));
    ThreeSteps(TryNext, w, Start(u, b, WIDE), w1, ReadGeneration(u), w2, TrySlab(u), w');
  }

  lemma WideBlock(o: nat)
    requires o % LOCKFREE_ALIGNMENT == 0
    ensures AlignUp(o, LOCKFREE_ALIGNMENT) == o && BlockSize(1024) == 1024 && AlignUp(o, 1) == o
  {
    AlignUpOfMultiple(o, LOCKFREE_ALIGNMENT);
    AlignUpOfMultiple(1024, LOCKFREE_ALIGNMENT);
    AlignUpOfMultiple(o, 1);
  }

  lemma SoloClaims(w: World, w0: World, u: Tid, b: Bid, o: nat, e: nat) returns (w': World)
    requires During(w, w0, u, b, o, e, Refilling(b, WIDE, 0))
    requires o % LOCKFREE_ALIGNMENT == 0 && o + 1024 <= LOCKFREE_BUFFER_SIZE
    ensures Leads(TryNext, w, [LoadOffset(u), Cas(u)], w')
    ensures During(w', w0, u, b, o + 1024, e, Claimed(b, WIDE, o, o + 1024, e))
  {
    WideBlock(o);
    var w1 := Next(w, LoadOffset(u));
    w' := Next(w1, Cas(u));
    RepaintTags(w1.shadows[b], e, o, o + 1024, Flight(u), 1);
    TwoSteps(TryNext, w, LoadOffset(u), w1, Cas(u), w');
  }

  /** A wide request with the buffer to itself is granted the next 1024 bytes,
      if it may read the generation. */
  lemma SoloInstalls(w: World, w0: World, u: Tid, b: Bid, o: nat, e: nat)
    requires o % LOCKFREE_ALIGNMENT == 0 && b in w0.bufs
    requires During(w, w0, u, b, o + 1024, e, Claimed(b, WIDE, o, o + 1024, e))
    ensures Possible(w, ReadGenerationAgain(u))
    ensures Guarded(w, ReadGenerationAgain(u)) <==> e <= w0.bufs[b].generation
    ensures var w1 := Next(w, ReadGenerationAgain(u));
            && Shaped(w1) && Enabled(w1, Install(u))
            && var w' := Next(w1, Install(u));
               && Solo(w', u, b, o + 1024, e) && w'.bufs[b].generation == w0.bufs[b].generation
               && w'.log == w0.log + [Grant(b, w0.bufs[b].generation, e, o, WIDE)]
  {
    WideBlock(o);
    RepaintTags(w.shadows[b], e, o, o + 1024, Slab(u), 0);
    RepaintTags(Repaint(w.shadows[b], e, o, o + 1024, Slab(u), 0), e, o, o + 1024, Granted(|w.log|), 0);
  }

  /** The steps of a wide request up to its claim ... */
  function ClaimSteps(u: Tid, b: Bid): seq<Action> {
    [Start(u, b, WIDE), ReadGeneration(u), TrySlab(u)] + [LoadOffset(u), Cas(u)]
  }

  /** ... and to its end. */
  function RequestSteps(u: Tid, b: Bid): seq<Action> {
    ClaimSteps(u, b) + [ReadGenerationAgain(u), Install(u)]
  }

  lemma SoloUpToClaim(w: World, u: Tid, b: Bid, o: nat, e: nat) returns (w': World)
    requires Solo(w, u, b, o, e) && o % LOCKFREE_ALIGNMENT == 0 && o + 1024 <= LOCKFREE_BUFFER_SIZE
    ensures Leads(TryNext, w, ClaimSteps(u, b), w')
    ensures During(w', w, u, b, o + 1024, e, Claimed(b, WIDE, o, o + 1024, e))
  {
    var w1 := SoloEnters(w, u, b, o, e);
    w' := SoloClaims(w1, w, u, b, o, e);
    LeadsOn(TryNext, w, [Start(u, b, WIDE), ReadGeneration(u), TrySlab(u)], w1, [LoadOffset(u), Cas(u)], w');
  }

  lemma SoloRequest(w: World, u: Tid, b: Bid, o: nat) returns (w': World)
    requires b in w.bufs && Solo(w, u, b, o, w.bufs[b].generation)
    requires o % LOCKFREE_ALIGNMENT == 0 && o + 1024 <= LOCKFREE_BUFFER_SIZE
    ensures Leads(TryNext, w, RequestSteps(u, b), w')
    ensures Solo(w', u, b, o + 1024, w.bufs[b].generation) && w'.bufs[b].generation == w.bufs[b].generation
    ensures w'.log == w.log + [Grant(b, w.bufs[b].generation, w.bufs[b].generation, o, WIDE)]
  {
    var e := w.bufs[b].generation;
    var w2 := SoloUpToClaim(w, u, b, o, e);
    SoloInstalls(w2, w, u, b, o, e);
    var w3 := Next(w2, ReadGenerationAgain(u));
    w' := Next(w3, Install(u));
    TwoSteps(TryNext, w2, ReadGenerationAgain(u), w3, Install(u), w');
    LeadsOn(TryNext, w, ClaimSteps(u, b), w2, [ReadGenerationAgain(u), Install(u)], w');
  }

  lemma Kilobytes(k: nat)
    ensures (1024 * k) % LOCKFREE_ALIGNMENT == 0
  {
    assert 1024 * k == 16 * k * 64;
    ModOfMultiple(16 * k, 64);
  }

  /** Wide requests until the `k`th kilobyte is granted. */
  lemma {:induction false} SoloUpTo(w: World, u: Tid, b: Bid, k: nat) returns (acts: seq<Action>, w': World)
    requires b in w.bufs && Solo(w, u, b, 0, w.bufs[b].generation) && k < 4
    ensures Leads(TryNext, w, acts, w')
    ensures Solo(w', u, b, 1024 * (k + 1), w.bufs[b].generation) && w'.bufs[b].generation == w.bufs[b].generation
    ensures w.log < w'.log
    ensures w'.log[|w'.log| - 1] == Grant(b, w.bufs[b].generation, w.bufs[b].generation, 1024 * k, WIDE)
  {
    if k == 0 {
      acts := RequestSteps(u, b);
      w' := SoloRequest(w, u, b, 0);
    } else {
      var before, w1 := SoloUpTo(w, u, b, k - 1);
      Kilobytes(k);
      w' := SoloRequest(w1, u, b, 1024 * k);
      acts := before + RequestSteps(u, b);
      LeadsOn(TryNext, w, before, w1, RequestSteps(u, b), w');
    }
  }

  /** Once a grant of some bytes of another era has been made, a bystander can be
      granted the same bytes. */
  lemma OffGrantOverlaps(w: World, u: Tid, b: Bid) returns (acts: seq<Action>, w': World)
    requires OffGrant(w, b) && Bystander(w, u, b) && w.log[|w.log| - 1].layout.size > 0
    ensures Leads(TryNext, w, acts, w') && !AllApart(w'.log)
  {
    var j := |w.log| - 1;
    var g := w.log[j];
    acts, w' := SoloUpTo(w, u, b, g.start / 1024);
    var h := w'.log[|w'.log| - 1];
    assert w'.log[j] == g && !Apart(g, h);
  }

  /** When no block is claimed between the two stores of a reset and no other
      reset is under way, and the second store finds thread `t` harmful and
      asking for some bytes, then those bytes can be granted twice. */
  lemma HarmfulResetOverlaps(w: World, t: Tid, u: Tid, b: Bid) returns (acts: seq<Action>, w': World)
    requires Inv(w) && t in w.threads && u in w.threads && w.threads[u].pc == Resetting(b)
    requires b in w.bufs && w.bufs[b].hasMemory && w.bufs[b].offset == 0
    requires Era(w.shadows[b]) == w.bufs[b].generation + 1
    requires Harmful(w.threads[t], b, w.bufs[b].generation) && w.threads[t].pc.layout.size > 0
    ensures Leads(TryNext, BumpNext(w, u), acts, w') && !AllApart(w'.log)
  {
    var first, w1 := HarmfulBump(w, t, u, b);
    var more;
    more, w' := OffGrantOverlaps(w1, u, b);
    LeadsOn(TryNext, BumpNext(w, u), first, w1, more, w');
    acts := first + more;
  }

  /** A wide request whose block is claimed between the two stores of a reset can
      be granted the bytes at the offset under the old generation, whatever was
      granted there before. */
  lemma RequestBetweenStores(w: World, u: Tid, b: Bid, o: nat, e: nat) returns (w': World)
    requires Solo(w, u, b, o, e) && o % LOCKFREE_ALIGNMENT == 0 && o + 1024 <= LOCKFREE_BUFFER_SIZE
    ensures Leads(TryCode, w, RequestSteps(u, b), w')
    ensures w'.log == w.log + [Grant(b, w.bufs[b].generation, e, o, WIDE)]
  {
    var w2 := SoloUpToClaim(w, u, b, o, e);
    GuardedIsCode(w, ClaimSteps(u, b), w2);
    SoloInstalls(w2, w, u, b, o, e);
    var w3 := Next(w2, ReadGenerationAgain(u));
    w' := Next(w3, Install(u));
    TwoSteps(TryCode, w2, ReadGenerationAgain(u), w3, Install(u), w');
    LeadsOn(TryCode, w, ClaimSteps(u, b), w2, [ReadGenerationAgain(u), Install(u)], w');
  }

  lemma {:induction false} GuardedIsCode(w: World, acts: seq<Action>, w': World)
    requires Leads(TryNext, w, acts, w')
    ensures Leads(TryCode, w, acts, w')
    decreases acts
  {
    if acts != [] {
      GuardedIsCode(Next(w, acts[0]), acts[1..], w');
    }
  }

  // ----- two runs -----

  /** The steps of one thread leave the others where they are. */
  ghost predicate OnlyMoved(w: World, w': World, t: Tid) {
    && w'.threads.Keys == w.threads.Keys
    && forall u :: u in w.threads && u != t ==> w'.threads[u] == w.threads[u]
  }

  lemma StepMovesOnly(w: World, a: Action)
    requires Shaped(w) && Possible(w, a)
    ensures OnlyMoved(w, Next(w, a), a.t)
  {
    NextKeepsKeys(w, a);
    forall u | u in w.threads && u != a.t ensures Next(w, a).threads[u] == w.threads[u] {
      OthersUntouched(w, a, u);
    }
  }

  lemma {:induction false} StepsMoveOnly(w: World, acts: seq<Action>, w': World, t: Tid)
    requires Leads(TryNext, w, acts, w') && forall i :: 0 <= i < |acts| ==> acts[i].t == t
    ensures OnlyMoved(w, w', t)
    decreases acts
  {
    if acts != [] {
      StepMovesOnly(w, acts[0]);
      StepsMoveOnly(Next(w, acts[0]), acts[1..], w', t);
    }
  }

  /** A state in which nothing has happened, with two threads and a buffer. */
  ghost predicate TwoThreads(w: World, t: Tid, r: Tid, b: Bid) {
    Init(w) && t in w.threads && r in w.threads && t != r && b in w.bufs && w.bufs[b].hasMemory
  }

  /** What a request of `t` alone leaves behind. */
  lemma AfterOneThread(w: World, t: Tid, r: Tid, b: Bid, acts: seq<Action>, w': World)
    requires TwoThreads(w, t, r, b) && Leads(TryNext, w, acts, w') && forall i :: 0 <= i < |acts| ==> acts[i].t == t
    ensures Inv(w') && OnlyMoved(w, w', t) && r in w'.threads && w'.threads[r].pc.Idle?
  {
    InitInv(w);
    LeadsKeepsInv(w, acts, w');
    StepsMoveOnly(w, acts, w', t);
  }

  lemma FirstStore(w: World, r: Tid, b: Bid)
    requires Inv(w) && b in w.bufs && r in w.threads && w.threads[r].pc.Idle?
    ensures Enabled(w, StoreOffset(r, b))
    ensures var half := Next(w, StoreOffset(r, b));
            && Inv(half) && half.log == w.log && half.threads == w.threads[r := half.threads[r]]
            && Possible(half, BumpGeneration(r)) && Next(half, BumpGeneration(r)) == BumpNext(half, r)
            && half.threads[r].pc == Resetting(b)
            && half.bufs[b] == w.bufs[b].(offset := 0) && Era(half.shadows[b]) == Era(w.shadows[b]) + 1
  {
    assert BufferOk(w, b);
    NextKeepsInv(w, StoreOffset(r, b));
  }

  /** `t` asks for 1024 bytes and wins the CAS; `r` resets the buffer, both
      stores; then the first 1024 bytes can be granted to both. */
  lemma ResetDuringClaimOverlaps(w0: World, t: Tid, r: Tid, b: Bid)
    returns (w1: World, acts: seq<Action>, w2: World)
    requires TwoThreads(w0, t, r, b)
    ensures Leads(TryNext, w0, ClaimSteps(t, b), w1)
    ensures Shaped(w1) && Enabled(w1, StoreOffset(r, b))
    ensures var half := Next(w1, StoreOffset(r, b));
            && Shaped(half) && Possible(half, BumpGeneration(r))
            && Leads(TryNext, Next(half, BumpGeneration(r)), acts, w2) && !AllApart(w2.log)
  {
    w1 := SoloUpToClaim(w0, t, b, 0, 0);
    AfterOneThread(w0, t, r, b, ClaimSteps(t, b), w1);
    FirstStore(w1, r, b);
    acts, w2 := HarmfulResetOverlaps(Next(w1, StoreOffset(r, b)), t, r, b);
  }

  /** `t` has been granted the first 1024 bytes; `r` resets the idle buffer;
      between its two stores `t` asks for 1024 bytes again, and is granted the
      same ones in the same generation. */
  lemma RequestDuringResetOverlaps(w0: World, t: Tid, r: Tid, b: Bid) returns (w1: World, w2: World)
    requires TwoThreads(w0, t, r, b)
    ensures Leads(TryNext, w0, RequestSteps(t, b), w1)
    ensures Shaped(w1) && Quiescent(w1, b) && Enabled(w1, StoreOffset(r, b))
    ensures Leads(TryCode, Next(w1, StoreOffset(r, b)), RequestSteps(t, b), w2)
    ensures w2.log == [Grant(b, 0, 0, 0, WIDE), Grant(b, 0, 1, 0, WIDE)] && !AllApart(w2.log)
  {
    w1 := SoloRequest(w0, t, b, 0);
    AfterOneThread(w0, t, r, b, RequestSteps(t, b), w1);
    FirstStore(w1, r, b);
    w2 := RequestBetweenStores(Next(w1, StoreOffset(r, b)), t, b, 0, 1);
    assert !Apart(w2.log[0], w2.log[1]);
  }
}
