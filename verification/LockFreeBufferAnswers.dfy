/** What each step of `try_alloc` answers, when it refuses, and where it places
    what it grants; and what the counters say about the answers. */
module LockFreeBufferAnswers {
  import opened Alignment
  import opened LockFreeBuffer
  import opened LockFreeBufferSafety
  import opened Options

  // ----- where a request is served -----

  /** An aligned place for a request in the bytes `lo .. hi`. */
  predicate PlaceIn(lo: nat, hi: nat, layout: Layout, m: nat)
    requires layout.align > 0
  {
    MultipleFrom(m, lo, layout.align) && m + layout.size <= hi
  }

  ghost predicate HasPlace(lo: nat, hi: nat, layout: Layout)
    requires layout.align > 0
  {
    exists m: nat :: PlaceIn(lo, hi, layout, m)
  }

  /** A slab serves a request exactly when it has a place for it in what is left
      of it, and then at the least aligned offset. */
  lemma SlabServesIff(slab: ThreadSlab, layout: Layout)
    requires layout.align > 0
    ensures var (slab', at) := slab.TryAlloc(layout);
            && (at.Some? <==> slab.base.Some? && HasPlace(slab.offset, slab.end, layout))
            && (at.Some? ==>
                  && LeastFrom(at.value, slab.offset, layout.align) && at.value + layout.size <= slab.end
                  && slab' == slab.(offset := at.value + layout.size))
            && (at.None? ==> slab' == slab)
  {
    AlignUpLeastFrom(slab.offset, layout.align);
    var aligned := AlignUp(slab.offset, layout.align);
    if aligned + layout.size <= slab.end {
      assert PlaceIn(slab.offset, slab.end, layout, aligned);
    }
    if m: nat :| PlaceIn(slab.offset, slab.end, layout, m) {
      assert MultipleFrom(m, slab.offset, layout.align);
    }
  }

  /** The call of `t` returns `outcome`; the rest of the step is in `w'`. */
  ghost predicate Answered(w: World, w': World, t: Tid, b: Bid, layout: Layout, outcome: Outcome) {
    && b in w.bufs && t in w'.threads && w'.threads[t].pc == Idle
    && w'.calls == w.calls + [Return(t, b, layout, w.bufs[b].generation, outcome)]
  }

  /** It returns a grant at the least aligned offset at or above `lo`. */
  ghost predicate GrantedFrom(w: World, w': World, t: Tid, b: Bid, layout: Layout, lo: nat)
    requires layout.align > 0
  {
    && Answered(w, w', t, b, layout, Hit(|w.log|))
    && |w'.log| == |w.log| + 1
    && var g := w'.log[|w.log|];
       && g.buf == b && g.layout == layout && g.generation == w.bufs[b].generation
       && LeastFrom(g.start, lo, layout.align)
  }

  /** What is left of a slab `lo .. hi` of buffer `b` once the last grant is taken. */
  predicate LeftOf(w': World, t: Tid, b: Bid, lo: nat, hi: nat, gen: nat) {
    && t in w'.threads && w'.log != []
    && var g := w'.log[|w'.log| - 1];
       w'.threads[t].slab == ThreadSlab(Some(b), Some(b), lo, hi, g.start + g.layout.size, gen)
  }

  /** A request is turned away at once exactly when it is larger than 1024 bytes. */
  lemma StartMeaning(w: World, t: Tid, b: Bid, layout: Layout)
    requires Shaped(w) && Possible(w, Start(t, b, layout))
    ensures var w' := StartNext(w, t, b, layout);
            && w'.log == w.log
            && (layout.size > 1024 ==> Answered(w, w', t, b, layout, Oversize))
            && (layout.size <= 1024 ==> w' == SetPc(w, t, Entered(b, layout)))
  {
  }

  lemma ServeGrants(w: World, t: Tid, b: Bid, layout: Layout)
    requires Shaped(w) && t in w.threads && b in w.bufs && layout.align > 0
    ensures var ((w', served), slab) := (Serve(w, t, b, layout), w.threads[t].slab);
            && (served <==> slab.base.Some? && HasPlace(slab.offset, slab.end, layout))
            && (served ==> GrantedFrom(w, w', t, b, layout, slab.offset))
            && (!served ==> w' == w)
  {
    SlabServesIff(w.threads[t].slab, layout);
  }

  /** The fast path grants exactly when the slab is of this buffer and the
      generation just read, and has a place left; a slab of another is dropped.
      Otherwise the call goes on to the shared buffer, or fails if there is none. */
  lemma TrySlabMeaning(w: World, t: Tid)
    requires Inv(w) && Possible(w, TrySlab(t))
    ensures var (w', pc, slab) := (TrySlabNext(w, t), w.threads[t].pc, w.threads[t].slab);
            var own := slab.owner == Some(pc.buf) && slab.generation == pc.gen;
            var fits := own && HasPlace(slab.offset, slab.end, pc.layout);
            && (fits ==>
                  && GrantedFrom(w, w', t, pc.buf, pc.layout, slab.offset)
                  && LeftOf(w', t, pc.buf, slab.start, slab.end, pc.gen))
            && (!own ==> w'.threads[t].slab == EMPTY_SLAB)
            && (own && !fits ==> w'.threads[t].slab == slab)
            && (!fits && w.bufs[pc.buf].hasMemory ==>
                  && w'.threads[t].pc == Refilling(pc.buf, pc.layout, 0) && w'.log == w.log && w'.calls == w.calls)
            && (!fits && !w.bufs[pc.buf].hasMemory ==>
                  Answered(w, w', t, pc.buf, pc.layout, NoMemory) && w'.log == w.log)
  {
    assert SlabOk(w, t);
    ServeGrants(w, t, w.threads[t].pc.buf, w.threads[t].pc.layout);
  }

  /** `n` bytes are what a request claims: the least multiple of 64 that is at
      least 256 and holds it. */
  ghost predicate ClaimSize(layout: Layout, n: nat) {
    LeastFrom(n, if layout.size > 256 then layout.size else 256, 64)
  }

  lemma BlockSizeIsClaimSize(layout: Layout)
    ensures ClaimSize(layout, BlockSize(layout.size))
  {
    AlignUpLeastFrom(if layout.size > 256 then layout.size else 256, 64);
  }

  lemma OneClaimSize(layout: Layout, n: nat)
    requires ClaimSize(layout, n)
    ensures n == BlockSize(layout.size)
  {
    BlockSizeIsClaimSize(layout);
    var v := if layout.size > 256 then layout.size else 256;
    assert MultipleFrom(n, v, 64) && MultipleFrom(BlockSize(layout.size), v, 64);
  }

  /** The refill gives up exactly when less than a block is left of the buffer. */
  lemma LoadMeaning(w: World, t: Tid, n: nat)
    requires Inv(w) && Possible(w, LoadOffset(t)) && ClaimSize(w.threads[t].pc.layout, n)
    ensures var (w', pc) := (LoadNext(w, t), w.threads[t].pc);
            var offset := w.bufs[pc.buf].offset;
            && w'.log == w.log
            && (offset + n > 4096 ==> Answered(w, w', t, pc.buf, pc.layout, Exhausted))
            && (offset + n <= 4096 ==> w' == SetPc(w, t, Loaded(pc.buf, pc.layout, pc.fails, offset)))
  {
    var pc := w.threads[t].pc;
    assert BufferOk(w, pc.buf);
    AlignUpOfMultiple(w.bufs[pc.buf].offset, LOCKFREE_ALIGNMENT);
    OneClaimSize(pc.layout, n);
  }

  /** The exchange wins exactly when the offset is the one loaded, and then claims
      one block from there on; otherwise only contention is counted. */
  lemma ExchangeMeaning(w: World, t: Tid, n: nat)
    requires Inv(w) && Possible(w, Cas(t)) && ClaimSize(w.threads[t].pc.layout, n)
    ensures var (w', pc) := (CasNext(w, t), w.threads[t].pc);
            var won := w.bufs[pc.buf].offset == pc.current;
            && w'.log == w.log && w'.calls == w.calls
            && (won ==>
                  && w'.threads[t].pc.Claimed? && w'.threads[t].pc.buf == pc.buf && w'.threads[t].pc.layout == pc.layout
                  && w'.threads[t].pc.start == pc.current && w'.threads[t].pc.end == pc.current + n
                  && w'.bufs[pc.buf] == w.bufs[pc.buf].(offset := pc.current + n))
            && (!won ==>
                  && w'.threads[t].pc == Refilling(pc.buf, pc.layout, pc.fails + 1)
                  && w'.bufs[pc.buf].offset == w.bufs[pc.buf].offset)
  {
    var pc := w.threads[t].pc;
    assert PcOk(w, t);
    AlignUpOfMultiple(pc.current, LOCKFREE_ALIGNMENT);
    OneClaimSize(pc.layout, n);
  }

  /** The claimed block becomes the slab, and serves the request that claimed it
      exactly when there is an aligned place for it in the block. */
  lemma InstallMeaning(w: World, t: Tid)
    requires Shaped(w) && Possible(w, Install(t))
    ensures var (w', pc) := (InstallNext(w, t), w.threads[t].pc);
            && (HasPlace(pc.start, pc.end, pc.layout) ==>
                  && GrantedFrom(w, w', t, pc.buf, pc.layout, pc.start)
                  && LeftOf(w', t, pc.buf, pc.start, pc.end, pc.gen))
            && (!HasPlace(pc.start, pc.end, pc.layout) ==>
                  && Answered(w, w', t, pc.buf, pc.layout, Misaligned) && w'.log == w.log
                  && w'.threads[t].slab == ThreadSlab(Some(pc.buf), Some(pc.buf), pc.start, pc.end, pc.start, pc.gen))
  {
    var pc := w.threads[t].pc;
    ServeGrants(Installed(w, t), t, pc.buf, pc.layout);
  }

  // ----- grants and counters by calls -----

  /** The grants that calls have returned, in order. */
  function Hits(calls: seq<Return>): seq<nat> {
    if calls == [] then []
    else
      var r := calls[|calls| - 1];
      Hits(calls[..|calls| - 1]) + if r.outcome.Hit? then [r.outcome.k] else []
  }

  /** The calls on `b` that were served in generation `gen` ... */
  function ServedCalls(calls: seq<Return>, b: Bid, gen: nat): nat {
    if calls == [] then 0
    else
      var r := calls[|calls| - 1];
      ServedCalls(calls[..|calls| - 1], b, gen) +
      if r.buf == b && r.generation == gen && r.outcome.Hit? then 1 else 0
  }

  /** ... and what the others count: an exhausted buffer is counted twice. */
  function MissCount(calls: seq<Return>, b: Bid, gen: nat): nat {
    if calls == [] then 0
    else
      var r := calls[|calls| - 1];
      MissCount(calls[..|calls| - 1], b, gen) +
      if r.buf != b || r.generation != gen || r.outcome.Hit? then 0 else if r.outcome.Exhausted? then 2 else 1
  }

  lemma CallAppended(calls: seq<Return>, r: Return, b: Bid, gen: nat)
    ensures Hits(calls + [r]) == Hits(calls) + if r.outcome.Hit? then [r.outcome.k] else []
    ensures ServedCalls(calls + [r], b, gen) ==
              ServedCalls(calls, b, gen) + if r.buf == b && r.generation == gen && r.outcome.Hit? then 1 else 0
    ensures MissCount(calls + [r], b, gen) ==
              MissCount(calls, b, gen) +
              if r.buf != b || r.generation != gen || r.outcome.Hit? then 0 else if r.outcome.Exhausted? then 2 else 1
  {
    assert (calls + [r])[..|calls|] == calls;
  }

  lemma {:induction false} NoneYet(calls: seq<Return>, b: Bid, gen: nat)
    requires forall k :: 0 <= k < |calls| && calls[k].buf == b ==> calls[k].generation < gen
    ensures ServedCalls(calls, b, gen) == 0 && MissCount(calls, b, gen) == 0
  {
    if calls != [] {
      NoneYet(calls[..|calls| - 1], b, gen);
    }
  }

  /** The figures that one step may change. */
  datatype Step = Still | Missed(ret: Return) | HitStep(ret: Return)

  /** How a step moves log, calls and the counters of every buffer. */
  ghost predicate Recorded(w: World, w': World, step: Step) {
    && w'.bufs.Keys == w.bufs.Keys
    && (forall b {:trigger w'.bufs[b]} :: b in w.bufs ==> w'.bufs[b].generation == w.bufs[b].generation)
    && match step
       case Still =>
         && w'.log == w.log && w'.calls == w.calls
         && forall b {:trigger w'.bufs[b]} :: b in w.bufs ==> SameCounts(w.bufs[b].stats, w'.bufs[b].stats, 0, 0)
       case Missed(r) =>
         && w'.log == w.log && w'.calls == w.calls + [r] && !r.outcome.Hit?
         && r.buf in w.bufs && r.generation == w.bufs[r.buf].generation
         && forall b {:trigger w'.bufs[b]} :: b in w.bufs ==>
              SameCounts(w.bufs[b].stats, w'.bufs[b].stats, 0,
                         if b != r.buf then 0 else if r.outcome.Exhausted? then 2 else 1)
       case HitStep(r) =>
         && |w'.log| == |w.log| + 1 && w'.log == w.log + [w'.log[|w.log|]]
         && w'.calls == w.calls + [r] && r.outcome == Hit(|w.log|)
         && r.buf in w.bufs && r.generation == w.bufs[r.buf].generation
         && Answers(r, w'.log[|w.log|])
         && forall b {:trigger w'.bufs[b]} :: b in w.bufs ==>
              SameCounts(w.bufs[b].stats, w'.bufs[b].stats, if b == r.buf then 1 else 0, 0)
  }

  predicate SameCounts(s: Stats, s': Stats, hits: nat, misses: nat) {
    s'.hits == s.hits + hits && s'.misses == s.misses + misses
  }

  /** The grant is what the call asked for. */
  predicate Answers(r: Return, g: Grant) {
    g.buf == r.buf && g.layout == r.layout && g.generation == r.generation
  }

  lemma ServeRecorded(w: World, t: Tid, b: Bid, layout: Layout)
    requires Shaped(w) && t in w.threads && b in w.bufs && layout.align > 0 && Serve(w, t, b, layout).1
    ensures Recorded(w, Serve(w, t, b, layout).0, HitStep(Return(t, b, layout, w.bufs[b].generation, Hit(|w.log|))))
  {
  }

  lemma RefillRecorded(w: World, t: Tid, slab: ThreadSlab, carved: nat) returns (step: Step)
    requires Shaped(w) && Possible(w, TrySlab(t))
    ensures var pc := w.threads[t].pc;
            Recorded(w, BeginRefill(SetSlab(w, t, slab, carved), t, pc.buf, pc.layout), step)
  {
    var pc := w.threads[t].pc;
    step := if w.bufs[pc.buf].hasMemory then Still
            else Missed(Return(t, pc.buf, pc.layout, w.bufs[pc.buf].generation, NoMemory));
  }

  lemma TrySlabRecorded(w: World, t: Tid) returns (step: Step)
    requires Shaped(w) && Possible(w, TrySlab(t))
    ensures Recorded(w, TrySlabNext(w, t), step)
  {
    var th := w.threads[t];
    if !th.slab.Matches(th.pc.buf, th.pc.gen) {
      step := RefillRecorded(w, t, EMPTY_SLAB, 0);
    } else if Serve(w, t, th.pc.buf, th.pc.layout).1 {
      ServeRecorded(w, t, th.pc.buf, th.pc.layout);
      step := HitStep(Return(t, th.pc.buf, th.pc.layout, w.bufs[th.pc.buf].generation, Hit(|w.log|)));
    } else {
      step := RefillRecorded(w, t, th.slab, th.carved);
      assert SetSlab(w, t, th.slab, th.carved) == w;
    }
  }

  lemma InstallRecorded(w: World, t: Tid) returns (step: Step)
    requires Shaped(w) && Possible(w, Install(t))
    ensures Recorded(w, InstallNext(w, t), step)
  {
    var pc, w1 := w.threads[t].pc, Installed(w, t);
    if Serve(w1, t, pc.buf, pc.layout).1 {
      ServeRecorded(w1, t, pc.buf, pc.layout);
      step := HitStep(Return(t, pc.buf, pc.layout, w.bufs[pc.buf].generation, Hit(|w.log|)));
    } else {
      step := Missed(Return(t, pc.buf, pc.layout, w.bufs[pc.buf].generation, Misaligned));
    }
  }

  lemma QuickRecorded(w: World, a: Action) returns (step: Step)
    requires Shaped(w) && Possible(w, a) && !a.TrySlab? && !a.Install? && !a.BumpGeneration?
    ensures Recorded(w, Next(w, a), step)
  {
    var w' := Next(w, a);
    step := if |w'.calls| > |w.calls| then Missed(w'.calls[|w.calls|]) else Still;
  }

  lemma NextRecorded(w: World, a: Action) returns (step: Step)
    requires Shaped(w) && Possible(w, a) && !a.BumpGeneration?
    ensures Recorded(w, Next(w, a), step)
  {
    if a.TrySlab? {
      step := TrySlabRecorded(w, a.t);
    } else if a.Install? {
      step := InstallRecorded(w, a.t);
    } else {
      step := QuickRecorded(w, a);
    }
  }

  /** Every grant answers one call, in order, and is what it asked for. */
  ghost predicate Matched(w: World) {
    && Hits(w.calls) == seq(|w.log|, k => k)
    && forall i :: 0 <= i < |w.calls| && w.calls[i].outcome.Hit? ==>
         w.calls[i].outcome.k < |w.log| && Answers(w.calls[i], w.log[w.calls[i].outcome.k])
  }

  lemma MatchedNext(w: World, w': World, step: Step)
    requires Matched(w) && Recorded(w, w', step)
    ensures Matched(w')
  {
    if !step.Still? {
      CallAppended(w.calls, step.ret, 0, 0);
    }
  }

  /** The counters of `b` since its generation last went up. */
  ghost predicate Tallies(w: World, b: Bid)
    requires b in w.bufs
  {
    TalliesOf(w.calls, b, w.bufs[b].generation, w.bufs[b].stats)
  }

  ghost predicate TalliesOf(calls: seq<Return>, b: Bid, gen: nat, s: Stats) {
    && s.hits == ServedCalls(calls, b, gen) && s.misses == MissCount(calls, b, gen)
    && forall i :: 0 <= i < |calls| && calls[i].buf == b ==> calls[i].generation <= gen
  }

  lemma TalliesNext(w: World, w': World, step: Step, b: Bid)
    requires Recorded(w, w', step) && b in w.bufs && Tallies(w, b)
    ensures b in w'.bufs && Tallies(w', b)
  {
    assert w'.bufs[b].generation == w.bufs[b].generation;
    match step
    case Still =>
    case Missed(r) => TalliesCall(w.calls, r, b, w.bufs[b].generation, w.bufs[b].stats, w'.bufs[b].stats);
    case HitStep(r) => TalliesCall(w.calls, r, b, w.bufs[b].generation, w.bufs[b].stats, w'.bufs[b].stats);
  }

  /** One more call, and what it counts. */
  lemma TalliesCall(calls: seq<Return>, r: Return, b: Bid, gen: nat, s: Stats, s': Stats)
    requires TalliesOf(calls, b, gen, s) && (r.buf == b ==> r.generation == gen)
    requires SameCounts(s, s', if b == r.buf && r.outcome.Hit? then 1 else 0,
                        if b != r.buf || r.outcome.Hit? then 0 else if r.outcome.Exhausted? then 2 else 1)
    ensures TalliesOf(calls + [r], b, gen, s')
  {
    CallAppended(calls, r, b, gen);
  }

  lemma TalliesBump(w: World, t: Tid, b: Bid)
    requires Shaped(w) && Possible(w, BumpGeneration(t)) && b in w.bufs && Tallies(w, b)
    ensures b in BumpNext(w, t).bufs && Tallies(BumpNext(w, t), b)
  {
    var w' := BumpNext(w, t);
    if b == w.threads[t].pc.buf {
      NoneYet(w.calls, b, w'.bufs[b].generation);
    }
  }

  ghost predicate Kept(w: World) {
    Matched(w) && forall b {:trigger Tallies(w, b)} :: b in w.bufs ==> Tallies(w, b)
  }

  lemma NextKept(w: World, a: Action)
    requires Shaped(w) && Possible(w, a) && Kept(w)
    ensures Kept(Next(w, a))
  {
    if a.BumpGeneration? {
      forall b | b in Next(w, a).bufs ensures Tallies(Next(w, a), b) {
        TalliesBump(w, a.t, b);
      }
    } else {
      var step := NextRecorded(w, a);
      MatchedNext(w, Next(w, a), step);
      forall b | b in Next(w, a).bufs ensures Tallies(Next(w, a), b) {
        TalliesNext(w, Next(w, a), step, b);
      }
    }
  }

  lemma InitKept(w: World)
    requires Init(w)
    ensures Kept(w)
  {
  }

  lemma {:induction false} RunKept(trace: seq<World>, acts: seq<Action>, i: nat)
    requires IsRun(trace, acts) && i < |trace|
    ensures Kept(trace[i])
  {
    if i == 0 {
      InitKept(trace[0]);
    } else {
      RunKept(trace, acts, i - 1);
      RunStep(trace, acts, i);
      NextKept(trace[i - 1], acts[i - 1]);
    }
  }

  /** In every interleaving: every grant is the answer to one call, grants and
      served calls come in the same order, and each has the buffer and layout of
      its call; hits and misses of a buffer are its answers since its generation
      last went up. */
  lemma EveryGrantAnswersACall(trace: seq<World>, acts: seq<Action>, i: nat)
    requires IsRun(trace, acts) && i < |trace|
    ensures Matched(trace[i])
    ensures forall b :: b in trace[i].bufs ==> Tallies(trace[i], b)
  {
    RunKept(trace, acts, i);
  }

  // ----- contention -----

  /** An exchange on `b` that sends its thread round the loop again. */
  predicate LostOn(w: World, a: Action, b: Bid)
    requires Shaped(w) && Possible(w, a)
  {
    a.Cas? && w.threads[a.t].pc.buf == b && a.t in Next(w, a).threads && Next(w, a).threads[a.t].pc.Refilling?
  }

  predicate CompletesReset(w: World, a: Action, b: Bid) {
    a.BumpGeneration? && a.t in w.threads && w.threads[a.t].pc == Resetting(b)
  }

  /** Exchanges lost on `b` since its last reset was completed. */
  ghost function LostSince(trace: seq<World>, acts: seq<Action>, i: nat, b: Bid): nat
    requires IsRun(trace, acts) && i < |trace|
  {
    if i == 0 then 0
    else
      assert Steps(trace, acts, i);
      if CompletesReset(trace[i - 1], acts[i - 1], b) then 0
      else LostSince(trace, acts, i - 1, b) + if LostOn(trace[i - 1], acts[i - 1], b) then 1 else 0
  }

  lemma ContentionStep(w: World, a: Action, b: Bid)
    requires Shaped(w) && Possible(w, a) && b in w.bufs
    ensures b in Next(w, a).bufs
    ensures Next(w, a).bufs[b].stats.contention ==
              if CompletesReset(w, a, b) then 0 else w.bufs[b].stats.contention + if LostOn(w, a, b) then 1 else 0
  {
    if a.Install? {
      InstallContention(w, a.t, b);
    }
  }

  lemma InstallContention(w: World, t: Tid, b: Bid)
    requires Shaped(w) && Possible(w, Install(t)) && b in w.bufs
    ensures b in InstallNext(w, t).bufs && InstallNext(w, t).bufs[b].stats.contention == w.bufs[b].stats.contention
  {
  }

  /** In every interleaving the contention counter of a buffer is the number of
      exchanges lost on it since its last reset. */
  lemma {:induction false} ContentionIsLosses(trace: seq<World>, acts: seq<Action>, i: nat, b: Bid)
    requires IsRun(trace, acts) && i < |trace| && b in trace[0].bufs
    ensures b in trace[i].bufs && trace[i].bufs[b].stats.contention == LostSince(trace, acts, i, b)
  {
    if i == 0 {
      InitContention(trace[0], b);
    } else {
      ContentionIsLosses(trace, acts, i - 1, b);
      RunStep(trace, acts, i);
      ContentionAt(trace[i - 1], acts[i - 1], trace[i], b);
    }
  }

  lemma InitContention(w: World, b: Bid)
    requires Init(w) && b in w.bufs
    ensures w.bufs[b].stats.contention == 0
  {
  }

  lemma ContentionAt(w: World, a: Action, w': World, b: Bid)
    requires Shaped(w) && Possible(w, a) && w' == Next(w, a) && b in w.bufs
    ensures b in w'.bufs
    ensures w'.bufs[b].stats.contention ==
              if CompletesReset(w, a, b) then 0 else w.bufs[b].stats.contention + if LostOn(w, a, b) then 1 else 0
  {
    ContentionStep(w, a, b);
  }
}
