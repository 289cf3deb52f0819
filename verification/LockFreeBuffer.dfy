/** The two-level lock-free allocator: threads claim 64-aligned blocks of a
    shared 4096-byte buffer by compare-and-swap and then bump privately inside
    their one thread-local slab.

    `World` holds any number of buffers and threads.  `Next` is one atomic
    action of one thread, so a run of `Next` is an interleaving of `try_alloc`
    and `reset` calls at the granularity of the loads and stores of `offset` and
    `generation` and of the CAS; counters and the slab of a resetting thread
    move with the step that causes them.  A reset is two steps, the store of
    `offset` and the increment of `generation`, and others may act in between.

    `Possible` says what the code can do; `Guarded` says which of those steps
    are safe.  Runs take guarded steps; that the guard is exact is shown in
    LockFreeBufferResets. */
module LockFreeBuffer {
  import opened Alignment
  import opened Options

  const LOCKFREE_BUFFER_SIZE: nat := 4096
  const LOCKFREE_ALIGNMENT: nat := 64
  const MAX_LOCKFREE_ALLOCATION: nat := 1024
  const SLAB_MIN_BLOCK: nat := 256

  type Tid = nat
  type Bid = nat

  /** The thread-local slab.  `owner` and `base` name the buffer; `None` is the null pointer. */
  datatype ThreadSlab = ThreadSlab(
    owner: Option<Bid>, base: Option<Bid>, start: nat, end: nat, offset: nat, generation: nat)
  {
    predicate Matches(b: Bid, gen: nat) {
      owner == Some(b) && generation == gen && base.Some?
    }

    /** The slab after a request, and the buffer offset it returned. */
    function TryAlloc(layout: Layout): (ThreadSlab, Option<nat>)
      requires layout.align > 0
    {
      if base.None? then (this, None)
      else
        var aligned := AlignUp(offset, layout.align);
        if aligned + layout.size <= end
        then (this.(offset := aligned + layout.size), Some(aligned))
        else (this, None)
    }
  }

  const EMPTY_SLAB := ThreadSlab(None, None, 0, 0, 0, 0)

  function Region(b: Bid, start: nat, end: nat, generation: nat): ThreadSlab {
    ThreadSlab(Some(b), Some(b), start, end, start, generation)
  }

  datatype Stats = Stats(allocations: nat, hits: nat, misses: nat, contention: nat)

  datatype Buffer = Buffer(hasMemory: bool, offset: nat, generation: nat, stats: Stats)

  /** Where a thread stands inside `try_alloc` or `reset`.  `fails` counts the
      lost CASes of the current refill; `epoch` is the era in which the CAS won. */
  datatype Pc =
    | Idle
    | Entered(buf: Bid, layout: Layout)
    | GenRead(buf: Bid, layout: Layout, gen: nat)
    | Refilling(buf: Bid, layout: Layout, fails: nat)
    | Loaded(buf: Bid, layout: Layout, fails: nat, current: nat)
    | Claimed(buf: Bid, layout: Layout, start: nat, end: nat, epoch: nat)
    | Installing(buf: Bid, layout: Layout, start: nat, end: nat, epoch: nat, gen: nat)
    | Resetting(buf: Bid)

  predicate InCall(pc: Pc) { !pc.Idle? && !pc.Resetting? }

  /** `carved` is the era in which the slab's block was claimed. */
  datatype Thread = Thread(slab: ThreadSlab, carved: nat, pc: Pc)

  /** A successful allocation: bytes `start .. start + layout.size` of `buf`. */
  datatype Grant = Grant(buf: Bid, generation: nat, carved: nat, start: nat, layout: Layout)

  /** Who may use a byte of a buffer. */
  datatype Tag = Unclaimed | Flight(t: Tid) | Slab(t: Tid) | Granted(k: nat)

  /** One era of a buffer, from one store of zero to `offset` to the next: a tag
      for every byte, and the number of blocks claimed. */
  datatype Layer = Layer(tags: seq<Tag>, blocks: nat)

  /** History that the code does not store: the eras so far, and, since the last
      increment of the generation, the number of blocks installed, of oversize
      requests, and of blocks installed that were claimed in another era. */
  datatype Shadow = Shadow(layers: seq<Layer>, installs: nat, oversize: nat, strays: nat)

  function FreshLayer(): Layer {
    Layer(seq(LOCKFREE_BUFFER_SIZE, _ => Unclaimed), 0)
  }

  /** The present era; it is ahead of the generation while resets are under way. */
  function Era(shadow: Shadow): nat {
    if shadow.layers == [] then 0 else |shadow.layers| - 1
  }

  /** What `try_alloc` returned: grant `k` of the log, or nothing, and why. */
  datatype Outcome = Hit(k: nat) | Oversize | NoMemory | Exhausted | Misaligned

  /** A finished call, and the generation of its buffer when it returned. */
  datatype Return = Return(t: Tid, buf: Bid, layout: Layout, generation: nat, outcome: Outcome)

  /** `log` and `calls` are history. */
  datatype World = World(
    bufs: map<Bid, Buffer>, threads: map<Tid, Thread>, shadows: map<Bid, Shadow>, log: seq<Grant>,
    calls: seq<Return>)

  datatype Action =
    | Start(t: Tid, b: Bid, layout: Layout)
    | ReadGeneration(t: Tid)
    | TrySlab(t: Tid)
    | LoadOffset(t: Tid)
    | Cas(t: Tid)
    | ReadGenerationAgain(t: Tid)
    | Install(t: Tid)
    | StoreOffset(t: Tid, b: Bid)
    | BumpGeneration(t: Tid)

  function BlockSize(size: nat): nat {
    AlignUp(if size > SLAB_MIN_BLOCK then size else SLAB_MIN_BLOCK, LOCKFREE_ALIGNMENT)
  }

  function Paint(tags: seq<Tag>, lo: nat, hi: nat, tag: Tag): (r: seq<Tag>)
    ensures |r| == |tags|
    ensures forall i :: 0 <= i < |r| ==> r[i] == if lo <= i < hi then tag else tags[i]
  {
    seq(|tags|, i requires 0 <= i < |tags| => if lo <= i < hi then tag else tags[i])
  }

  /** Retag bytes of era `e`. */
  function Repaint(shadow: Shadow, e: nat, lo: nat, hi: nat, tag: Tag, claimed: nat): Shadow {
    if e >= |shadow.layers| then shadow
    else
      var layer := shadow.layers[e];
      shadow.(layers := shadow.layers[e := Layer(Paint(layer.tags, lo, hi, tag), layer.blocks + claimed)])
  }

  // ----- actions -----

  /** What the code can do. */
  predicate Possible(w: World, a: Action) {
    && a.t in w.threads
    && var pc := w.threads[a.t].pc;
       match a
       case Start(_, b, layout) => pc.Idle? && b in w.bufs && layout.align > 0
       case ReadGeneration(_) => pc.Entered?
       case TrySlab(_) => pc.GenRead?
       case LoadOffset(_) => pc.Refilling?
       case Cas(_) => pc.Loaded?
       case ReadGenerationAgain(_) => pc.Claimed?
       case Install(_) => pc.Installing?
       case StoreOffset(_, b) => pc.Idle? && b in w.bufs
       case BumpGeneration(_) => pc.Resetting?
  }

  /** The two steps that must not happen at all times.  The generation must not
      be read for a block that was claimed between the two stores of a reset
      until the second store; and the second store must not happen while a
      thread stands to be served from before it. */
  predicate Guarded(w: World, a: Action)
    requires Shaped(w) && Possible(w, a)
  {
    var pc := w.threads[a.t].pc;
    && (a.ReadGenerationAgain? ==> pc.epoch <= w.bufs[pc.buf].generation)
    && (a.BumpGeneration? ==> Harmless(w, pc.buf))
  }

  predicate Enabled(w: World, a: Action)
    requires Shaped(w)
  {
    Possible(w, a) && Guarded(w, a)
  }

  predicate Serves(slab: ThreadSlab, layout: Layout) {
    layout.align > 0 && slab.TryAlloc(layout).1.Some?
  }

  /** A thread that the next generation of `b` would let be served from a block
      claimed in an era up to `gen`: it holds a block whose generation it has not
      read, or is about to use a block or a slab of the generation it has read. */
  predicate Harmful(th: Thread, b: Bid, gen: nat) {
    match th.pc
    case Claimed(buf, _, _, _, epoch) => buf == b && epoch <= gen
    case Installing(buf, layout, start, end, _, g) => buf == b && Serves(Region(b, start, end, g), layout)
    case GenRead(buf, layout, g) => buf == b && th.slab.Matches(b, g) && Serves(th.slab, layout)
    case _ => false
  }

  predicate Harmless(w: World, b: Bid)
    requires b in w.bufs
  {
    forall t :: t in w.threads ==> !Harmful(w.threads[t], b, w.bufs[b].generation)
  }

  /** No thread is inside `try_alloc` on `b`. */
  predicate Quiescent(w: World, b: Bid) {
    forall t :: t in w.threads && InCall(w.threads[t].pc) ==> w.threads[t].pc.buf != b
  }

  /** Buffers named by a running call exist, and so do their histories. */
  predicate Shaped(w: World) {
    && w.shadows.Keys == w.bufs.Keys
    && forall t :: t in w.threads ==>
         var pc := w.threads[t].pc;
         (!pc.Idle? ==> pc.buf in w.bufs) && (InCall(pc) ==> pc.layout.align > 0)
  }

  function SetPc(w: World, t: Tid, pc: Pc): World
    requires t in w.threads
  {
    w.(threads := w.threads[t := w.threads[t].(pc := pc)])
  }

  function SetSlab(w: World, t: Tid, slab: ThreadSlab, carved: nat): World
    requires t in w.threads
  {
    w.(threads := w.threads[t := w.threads[t].(slab := slab, carved := carved)])
  }

  function Count(w: World, b: Bid, allocations: nat, hits: nat, misses: nat, contention: nat): World
    requires b in w.bufs
  {
    var s := w.bufs[b].stats;
    w.(bufs := w.bufs[b := w.bufs[b].(stats := Stats(
      s.allocations + allocations, s.hits + hits, s.misses + misses, s.contention + contention))])
  }

  function Returns(w: World, t: Tid, b: Bid, layout: Layout, outcome: Outcome): World
    requires b in w.bufs
  {
    w.(calls := w.calls + [Return(t, b, layout, w.bufs[b].generation, outcome)])
  }

  /** Serve a request from the slab of `t`, or miss.  A hit is recorded here. */
  function Serve(w: World, t: Tid, b: Bid, layout: Layout): (World, bool)
    requires t in w.threads && b in w.bufs && b in w.shadows && layout.align > 0
  {
    var (slab, res) := w.threads[t].slab.TryAlloc(layout);
    match res
    case None => (w, false)
    case Some(start) =>
      var k := |w.log|;
      var shadow := w.shadows[b];
      var w1 := SetSlab(w, t, slab, w.threads[t].carved);
      var w2 := w1.(
        log := w.log + [Grant(b, w.bufs[b].generation, w.threads[t].carved, start, layout)],
        shadows := w.shadows[b := Repaint(shadow, w.threads[t].carved, start, start + layout.size, Granted(k), 0)]);
      (Returns(Count(SetPc(w2, t, Idle), b, 1, 1, 0, 0), t, b, layout, Hit(k)), true)
  }

  function Next(w: World, a: Action): World
    requires Shaped(w) && Possible(w, a)
  {
    var t := a.t;
    var pc := w.threads[t].pc;
    match a
    case Start(_, b, layout) => StartNext(w, t, b, layout)
    case ReadGeneration(_) => SetPc(w, t, GenRead(pc.buf, pc.layout, w.bufs[pc.buf].generation))
    case TrySlab(_) => TrySlabNext(w, t)
    case LoadOffset(_) => LoadNext(w, t)
    case Cas(_) => CasNext(w, t)
    case ReadGenerationAgain(_) =>
      SetPc(w, t, Installing(pc.buf, pc.layout, pc.start, pc.end, pc.epoch, w.bufs[pc.buf].generation))
    case Install(_) => InstallNext(w, t)
    case StoreOffset(_, b) => StoreOffsetNext(w, t, b)
    case BumpGeneration(_) => BumpNext(w, t)
  }

  function StartNext(w: World, t: Tid, b: Bid, layout: Layout): World
    requires t in w.threads && b in w.bufs && b in w.shadows
  {
    if layout.size > MAX_LOCKFREE_ALLOCATION then
      var shadow := w.shadows[b];
      var w1 := Count(w.(shadows := w.shadows[b := shadow.(oversize := shadow.oversize + 1)]), b, 1, 0, 1, 0);
      Returns(w1, t, b, layout, Oversize)
    else
      SetPc(w, t, Entered(b, layout))
  }

  /** The private fast path.  A slab of another buffer or generation is dropped. */
  function TrySlabNext(w: World, t: Tid): World
    requires Shaped(w) && t in w.threads && w.threads[t].pc.GenRead?
  {
    var pc := w.threads[t].pc;
    if !w.threads[t].slab.Matches(pc.buf, pc.gen) then
      BeginRefill(SetSlab(w, t, EMPTY_SLAB, 0), t, pc.buf, pc.layout)
    else
      var (w1, served) := Serve(w, t, pc.buf, pc.layout);
      if served then w1 else BeginRefill(w1, t, pc.buf, pc.layout)
  }

  function BeginRefill(w: World, t: Tid, b: Bid, layout: Layout): World
    requires t in w.threads && b in w.bufs
  {
    if !w.bufs[b].hasMemory
    then Returns(Count(SetPc(w, t, Idle), b, 0, 0, 1, 0), t, b, layout, NoMemory)
    else SetPc(w, t, Refilling(b, layout, 0))
  }

  function LoadNext(w: World, t: Tid): World
    requires Shaped(w) && t in w.threads && w.threads[t].pc.Refilling?
  {
    var pc := w.threads[t].pc;
    var current := w.bufs[pc.buf].offset;
    var end := AlignUp(current, LOCKFREE_ALIGNMENT) + BlockSize(pc.layout.size);
    if end > LOCKFREE_BUFFER_SIZE
    then Returns(Count(SetPc(w, t, Idle), pc.buf, 0, 0, 2, 0), t, pc.buf, pc.layout, Exhausted)
    else SetPc(w, t, Loaded(pc.buf, pc.layout, pc.fails, current))
  }

  function CasNext(w: World, t: Tid): World
    requires Shaped(w) && t in w.threads && w.threads[t].pc.Loaded?
  {
    var pc := w.threads[t].pc;
    if w.bufs[pc.buf].offset == pc.current
    then ClaimNext(w, t)
    else Count(SetPc(w, t, Refilling(pc.buf, pc.layout, pc.fails + 1)), pc.buf, 0, 0, 0, 1)
  }

  /** The CAS won: the shared offset jumps past the block. */
  function ClaimNext(w: World, t: Tid): World
    requires Shaped(w) && t in w.threads && w.threads[t].pc.Loaded?
  {
    var pc := w.threads[t].pc;
    var b := pc.buf;
    var start := AlignUp(pc.current, LOCKFREE_ALIGNMENT);
    var end := start + BlockSize(pc.layout.size);
    var shadow := w.shadows[b];
    SetPc(w.(
      bufs := w.bufs[b := w.bufs[b].(offset := end)],
      shadows := w.shadows[b := Repaint(shadow, Era(shadow), start, end, Flight(t), 1)]),
      t, Claimed(b, pc.layout, start, end, Era(shadow)))
  }

  /** The claimed block becomes the slab of `t` ... */
  function Installed(w: World, t: Tid): World
    requires Shaped(w) && t in w.threads && w.threads[t].pc.Installing?
  {
    var pc := w.threads[t].pc;
    var b := pc.buf;
    var w1 := SetSlab(SetPc(w, t, Idle), t, Region(b, pc.start, pc.end, pc.gen), pc.epoch);
    var shadow := Repaint(w.shadows[b], pc.epoch, pc.start, pc.end, Slab(t), 0);
    var stray := if pc.epoch == w.bufs[b].generation then 0 else 1;
    Count(w1.(shadows := w.shadows[b := shadow.(installs := shadow.installs + 1, strays := shadow.strays + stray)]),
          b, 1, 0, 0, 0)
  }

  /** ... and serves the request that claimed it. */
  function InstallNext(w: World, t: Tid): World
    requires Shaped(w) && t in w.threads && w.threads[t].pc.Installing?
  {
    var pc := w.threads[t].pc;
    var (w1, served) := Serve(Installed(w, t), t, pc.buf, pc.layout);
    if served then w1 else Returns(Count(w1, pc.buf, 0, 0, 1, 0), t, pc.buf, pc.layout, Misaligned)
  }

  /** The first store of a reset ... */
  function StoreOffsetNext(w: World, t: Tid, b: Bid): World
    requires t in w.threads && b in w.bufs && b in w.shadows
  {
    var shadow := w.shadows[b];
    SetPc(w.(
      bufs := w.bufs[b := w.bufs[b].(offset := 0)],
      shadows := w.shadows[b := shadow.(layers := shadow.layers + [FreshLayer()])]),
      t, Resetting(b))
  }

  /** ... and the rest of it. */
  function BumpNext(w: World, t: Tid): World
    requires Shaped(w) && t in w.threads && w.threads[t].pc.Resetting?
  {
    var b := w.threads[t].pc.buf;
    SetSlab(SetPc(w.(
      bufs := w.bufs[b := w.bufs[b].(generation := w.bufs[b].generation + 1, stats := Stats(0, 0, 0, 0))],
      shadows := w.shadows[b := w.shadows[b].(installs := 0, oversize := 0, strays := 0)]),
      t, Idle), t, EMPTY_SLAB, 0)
  }
}
