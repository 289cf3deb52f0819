/** What every interleaving of the lock-free allocator keeps. */
module LockFreeBufferSafety {
  import opened Alignment
  import opened LockFreeBuffer
  import opened Options

  ghost predicate Holds(tags: seq<Tag>, lo: int, hi: int, tag: Tag) {
    forall i :: lo <= i < hi && 0 <= i < |tags| ==> tags[i] == tag
  }

  function LayerTags(shadow: Shadow, e: int): seq<Tag> {
    if 0 <= e < |shadow.layers| then shadow.layers[e].tags else []
  }

  /** The tags of era `e` of buffer `b`. */
  function Tags(w: World, b: Bid, e: int): seq<Tag> {
    if b in w.shadows then LayerTags(w.shadows[b], e) else []
  }

  /** Eras are never behind the generation; every byte has a tag in every era,
      and what lies above the offset is unclaimed in the present one. */
  ghost predicate Backed(buf: Buffer, shadow: Shadow) {
    && buf.offset % LOCKFREE_ALIGNMENT == 0
    && buf.offset <= LOCKFREE_BUFFER_SIZE
    && buf.generation < |shadow.layers|
    && (forall e :: 0 <= e < |shadow.layers| ==> |LayerTags(shadow, e)| == LOCKFREE_BUFFER_SIZE)
    && Holds(LayerTags(shadow, Era(shadow)), buf.offset, LOCKFREE_BUFFER_SIZE, Unclaimed)
  }

  ghost predicate BufferOk(w: World, b: Bid)
    requires b in w.bufs && b in w.shadows
  {
    Backed(w.bufs[b], w.shadows[b])
  }

  /** Threads between the two stores of a reset of `b`. */
  function Pending(threads: map<Tid, Thread>, b: Bid): set<Tid> {
    set t | t in threads && threads[t].pc == Resetting(b)
  }

  /** The eras that the generation has yet to catch up with are under way. */
  ghost predicate PendingOk(w: World, b: Bid)
    requires b in w.bufs && b in w.shadows
  {
    w.bufs[b].generation + |Pending(w.threads, b)| == Era(w.shadows[b])
  }

  /** A slab owns what it has not handed out yet, in the era of its block. */
  ghost predicate SlabOk(w: World, t: Tid)
    requires t in w.threads && w.shadows.Keys == w.bufs.Keys
  {
    var slab := w.threads[t].slab;
    && slab.base == slab.owner
    && (slab.owner.Some? ==>
          var b := slab.owner.value;
          && b in w.bufs && w.bufs[b].hasMemory
          && w.threads[t].carved == slab.generation <= w.bufs[b].generation
          && slab.offset <= slab.end <= LOCKFREE_BUFFER_SIZE
          && Holds(Tags(w, b, slab.generation), slab.offset, slab.end, Slab(t)))
  }

  ghost predicate BlockOk(w: World, t: Tid, b: Bid, layout: Layout, start: nat, end: nat, epoch: nat)
    requires b in w.bufs && b in w.shadows
  {
    && w.bufs[b].hasMemory
    && start % LOCKFREE_ALIGNMENT == 0
    && end == start + BlockSize(layout.size) <= LOCKFREE_BUFFER_SIZE
    && epoch < |w.shadows[b].layers|
    && Holds(Tags(w, b, epoch), start, end, Flight(t))
  }

  /** What a thread inside `try_alloc` may rely on.  What it has read may be
      from before a reset only if it is not going to be served on the strength
      of it. */
  ghost predicate PcOk(w: World, t: Tid)
    requires t in w.threads && Shaped(w)
  {
    match w.threads[t].pc
    case Idle => true
    case Resetting(_) => true
    case Entered(_, layout) => layout.size <= MAX_LOCKFREE_ALLOCATION
    case GenRead(b, layout, gen) =>
      && layout.size <= MAX_LOCKFREE_ALLOCATION && gen <= w.bufs[b].generation
      && (gen == w.bufs[b].generation || !Harmful(w.threads[t], b, gen))
    case Refilling(b, layout, _) => layout.size <= MAX_LOCKFREE_ALLOCATION && w.bufs[b].hasMemory
    case Loaded(b, layout, _, current) =>
      && layout.size <= MAX_LOCKFREE_ALLOCATION && w.bufs[b].hasMemory
      && current % LOCKFREE_ALIGNMENT == 0
      && current + BlockSize(layout.size) <= LOCKFREE_BUFFER_SIZE
    case Claimed(b, layout, start, end, epoch) =>
      && layout.size <= MAX_LOCKFREE_ALLOCATION && BlockOk(w, t, b, layout, start, end, epoch)
      && w.bufs[b].generation <= epoch
    case Installing(b, layout, start, end, epoch, gen) =>
      && layout.size <= MAX_LOCKFREE_ALLOCATION && BlockOk(w, t, b, layout, start, end, epoch)
      && gen == epoch <= w.bufs[b].generation
      && (gen == w.bufs[b].generation || !Harmful(w.threads[t], b, gen))
  }

  ghost predicate GrantOk(w: World, k: nat)
    requires k < |w.log| && w.shadows.Keys == w.bufs.Keys
  {
    var g := w.log[k];
    && g.buf in w.bufs
    && SafeGrant(g)
    && g.generation <= w.bufs[g.buf].generation
    && Holds(Tags(w, g.buf, g.generation), g.start, g.start + g.layout.size, Granted(k))
  }

  predicate Apart(g: Grant, h: Grant) {
    || g.buf != h.buf
    || g.generation != h.generation
    || g.start + g.layout.size <= h.start
    || h.start + h.layout.size <= g.start
    || g.layout.size == 0
    || h.layout.size == 0
  }

  ghost predicate AllApart(log: seq<Grant>) {
    forall j, k :: 0 <= j < k < |log| ==> Apart(log[j], log[k])
  }

  /** The claimed properties, in one place: ranges granted by a buffer between
      two resets are pairwise disjoint, lie inside the buffer, have the
      requested alignment, and come from slabs carved since the last reset. */
  ghost predicate Safe(w: World) {
    && AllApart(w.log)
    && forall k :: 0 <= k < |w.log| ==> SafeGrant(w.log[k])
  }

  predicate SafeGrant(g: Grant) {
    && g.start + g.layout.size <= LOCKFREE_BUFFER_SIZE
    && g.layout.align > 0
    && g.start % g.layout.align == 0
    && g.carved == g.generation
  }

  ghost predicate Inv(w: World) {
    && Shaped(w)
    && BuffersOk(w)
    && ThreadsOk(w)
    && GrantsOk(w)
  }

  ghost predicate ThreadsOk(w: World)
    requires Shaped(w)
  {
    && (forall t {:trigger SlabOk(w, t)} :: t in w.threads ==> SlabOk(w, t))
    && (forall t {:trigger PcOk(w, t)} :: t in w.threads ==> PcOk(w, t))
  }

  ghost predicate GrantsOk(w: World)
    requires w.shadows.Keys == w.bufs.Keys
  {
    forall k {:trigger GrantOk(w, k)} :: 0 <= k < |w.log| ==> GrantOk(w, k)
  }

  ghost predicate BuffersOk(w: World)
    requires w.shadows.Keys == w.bufs.Keys
  {
    && (forall b {:trigger BufferOk(w, b)} :: b in w.bufs ==> BufferOk(w, b))
    && (forall b {:trigger PendingOk(w, b)} :: b in w.bufs ==> PendingOk(w, b))
  }

  ghost predicate Init(w: World) {
    && w.shadows.Keys == w.bufs.Keys
    && w.log == [] && w.calls == []
    && (forall b :: b in w.bufs ==>
          && w.bufs[b].offset == 0
          && w.bufs[b].generation == 0
          && w.bufs[b].stats == Stats(0, 0, 0, 0)
          && w.shadows[b] == Shadow([FreshLayer()], 0, 0, 0))
    && (forall t :: t in w.threads ==> w.threads[t] == Thread(EMPTY_SLAB, 0, Idle))
  }

  lemma InitInv(w: World)
    requires Init(w)
    ensures Inv(w)
  {
    forall b | b in w.bufs ensures PendingOk(w, b) {
      assert Pending(w.threads, b) == {};
    }
  }

  lemma BlockSizeBounds(size: nat)
    requires size <= MAX_LOCKFREE_ALLOCATION
    ensures SLAB_MIN_BLOCK <= BlockSize(size) && size <= BlockSize(size)
    ensures BlockSize(size) % LOCKFREE_ALIGNMENT == 0
  {
  }

  // ----- what one thread's action leaves alone -----

  /** Thread `t` has retagged only bytes that were its own or unclaimed. */
  ghost predicate TagsMoved(tags: seq<Tag>, tags': seq<Tag>, t: Tid) {
    && |tags'| == |tags|
    && forall i :: 0 <= i < |tags| ==> tags'[i] == tags[i] || tags[i] in {Slab(t), Flight(t), Unclaimed}
  }

  ghost predicate Moved(w: World, w': World, c: Bid, t: Tid)
    requires c in w.bufs && c in w'.bufs && c in w.shadows && c in w'.shadows
  {
    && w'.bufs[c].generation == w.bufs[c].generation && w'.bufs[c].hasMemory == w.bufs[c].hasMemory
    && LayersMoved(w.shadows[c], w'.shadows[c], t)
  }

  ghost predicate LayersMoved(shadow: Shadow, shadow': Shadow, t: Tid) {
    && |shadow.layers| <= |shadow'.layers|
    && forall e :: 0 <= e < |shadow.layers| ==> TagsMoved(LayerTags(shadow, e), LayerTags(shadow', e), t)
  }

  lemma RepaintTags(shadow: Shadow, e: nat, lo: nat, hi: nat, tag: Tag, n: nat)
    ensures var shadow' := Repaint(shadow, e, lo, hi, tag, n);
            && |shadow'.layers| == |shadow.layers|
            && forall f :: LayerTags(shadow', f) ==
                 if f == e then Paint(LayerTags(shadow, e), lo, hi, tag) else LayerTags(shadow, f)
  {
    if e >= |shadow.layers| {
      assert Paint([], lo, hi, tag) == [];
    }
  }

  /** Retagging bytes that somebody owned. */
  lemma RepaintOwned(buf: Buffer, shadow: Shadow, e: nat, lo: nat, hi: nat, tag: Tag, n: nat, t: Tid, owned: Tag)
    requires Backed(buf, shadow) && owned in {Slab(t), Flight(t)} && Holds(LayerTags(shadow, e), lo, hi, owned)
    ensures Backed(buf, Repaint(shadow, e, lo, hi, tag, n))
    ensures LayersMoved(shadow, Repaint(shadow, e, lo, hi, tag, n), t)
  {
    RepaintTags(shadow, e, lo, hi, tag, n);
    var tags := LayerTags(shadow, Era(shadow));
    forall i | buf.offset <= i < |tags|
      ensures LayerTags(Repaint(shadow, e, lo, hi, tag, n), Era(shadow))[i] == Unclaimed
    {
      assert tags[i] == Unclaimed;
    }
  }

  /** Retagging bytes above the offset of the present era, and moving it past them. */
  lemma RepaintUnclaimed(buf: Buffer, shadow: Shadow, lo: nat, hi: nat, tag: Tag, n: nat, t: Tid)
    requires Backed(buf, shadow) && buf.offset <= lo <= hi <= LOCKFREE_BUFFER_SIZE && hi % LOCKFREE_ALIGNMENT == 0
    ensures Backed(buf.(offset := hi), Repaint(shadow, Era(shadow), lo, hi, tag, n))
    ensures LayersMoved(shadow, Repaint(shadow, Era(shadow), lo, hi, tag, n), t)
  {
    RepaintTags(shadow, Era(shadow), lo, hi, tag, n);
  }

  /** Bytes with another tag keep it. */
  lemma RepaintElsewhere(shadow: Shadow, e: nat, lo: nat, hi: nat, tag: Tag, n: nat, f: nat, a: nat, z: nat, kept: Tag)
    requires Holds(LayerTags(shadow, f), a, z, kept)
    requires forall i :: lo <= i < hi && i < |LayerTags(shadow, e)| ==> LayerTags(shadow, e)[i] != kept
    ensures Holds(LayerTags(Repaint(shadow, e, lo, hi, tag, n), f), a, z, kept)
  {
    RepaintTags(shadow, e, lo, hi, tag, n);
    var tags, tags' := LayerTags(shadow, f), LayerTags(Repaint(shadow, e, lo, hi, tag, n), f);
    forall i | a <= i < z && i < |tags'| ensures tags'[i] == kept {
      assert tags[i] == kept;
    }
  }

  /** Buffer `c` after an action of `t`. */
  ghost predicate After(w: World, w': World, c: Bid, t: Tid)
    requires Shaped(w) && Shaped(w') && c in w.bufs && c in w'.bufs
  {
    Moved(w, w', c, t) && BufferOk(w', c) && PendingOk(w', c)
  }

  /** An action of `t` leaves the other threads alone. */
  ghost predicate Framed(w: World, w': World, t: Tid) {
    && Shaped(w')
    && w'.bufs.Keys == w.bufs.Keys
    && w'.threads.Keys == w.threads.Keys
    && (forall u :: u in w.threads && u != t ==> w'.threads[u] == w.threads[u])
  }

  ghost predicate ActedBy(w: World, w': World, t: Tid)
    requires Shaped(w)
  {
    && Framed(w, w', t)
    && forall c {:trigger After(w, w', c, t)} :: c in w.bufs ==> After(w, w', c, t)
  }

  /** Bytes of somebody else keep their tag. */
  lemma HoldsMoved(tags: seq<Tag>, tags': seq<Tag>, t: Tid, lo: int, hi: int, tag: Tag)
    requires TagsMoved(tags, tags', t) && Holds(tags, lo, hi, tag) && tag !in {Slab(t), Flight(t), Unclaimed}
    ensures Holds(tags', lo, hi, tag)
  {
  }

  lemma OtherThreadsOk(w: World, w': World, t: Tid, u: Tid)
    requires Inv(w) && ActedBy(w, w', t) && u in w.threads && u != t
    ensures SlabOk(w', u) && PcOk(w', u)
  {
    assert SlabOk(w, u) && PcOk(w, u);
    var slab, pc := w.threads[u].slab, w.threads[u].pc;
    if slab.owner.Some? {
      var b, e := slab.owner.value, slab.generation;
      assert After(w, w', b, t) && BufferOk(w, b);
      HoldsMoved(Tags(w, b, e), Tags(w', b, e), t, slab.offset, slab.end, Slab(u));
    }
    if InCall(pc) {
      assert After(w, w', pc.buf, t);
      if pc.Claimed? || pc.Installing? {
        HoldsMoved(Tags(w, pc.buf, pc.epoch), Tags(w', pc.buf, pc.epoch), t, pc.start, pc.end, Flight(u));
      }
    }
  }

  lemma OldGrantOk(w: World, w': World, t: Tid, k: nat)
    requires Inv(w) && ActedBy(w, w', t) && k < |w.log| <= |w'.log| && w'.log[k] == w.log[k]
    ensures GrantOk(w', k)
  {
    var g := w.log[k];
    assert GrantOk(w, k) && BufferOk(w, g.buf);
    assert After(w, w', g.buf, t);
    HoldsMoved(Tags(w, g.buf, g.generation), Tags(w', g.buf, g.generation), t,
               g.start, g.start + g.layout.size, Granted(k));
  }

  /** An action of `t` keeps the invariant when it does so locally. */
  lemma Assemble(w: World, w': World, t: Tid)
    requires Inv(w) && t in w.threads && ActedBy(w, w', t)
    requires SlabOk(w', t) && PcOk(w', t)
    requires |w.log| <= |w'.log| <= |w.log| + 1 && w'.log[..|w.log|] == w.log
    requires |w'.log| > |w.log| ==> GrantOk(w', |w.log|)
    ensures Inv(w')
  {
    AssembleBuffers(w, w', t);
    AssembleThreads(w, w', t);
    AssembleGrants(w, w', t);
  }

  lemma AssembleBuffers(w: World, w': World, t: Tid)
    requires Shaped(w) && ActedBy(w, w', t)
    ensures BuffersOk(w')
  {
    forall c | c in w'.bufs ensures BufferOk(w', c) && PendingOk(w', c) {
      assert After(w, w', c, t);
    }
  }

  lemma AssembleThreads(w: World, w': World, t: Tid)
    requires Inv(w) && t in w.threads && ActedBy(w, w', t) && SlabOk(w', t) && PcOk(w', t)
    ensures ThreadsOk(w')
  {
    forall u | u in w'.threads ensures SlabOk(w', u) && PcOk(w', u) {
      if u != t {
        OtherThreadsOk(w, w', t, u);
      }
    }
  }

  lemma AssembleGrants(w: World, w': World, t: Tid)
    requires Inv(w) && ActedBy(w, w', t)
    requires |w.log| <= |w'.log| <= |w.log| + 1 && w'.log[..|w.log|] == w.log
    requires |w'.log| > |w.log| ==> GrantOk(w', |w.log|)
    ensures GrantsOk(w')
  {
    forall k | 0 <= k < |w'.log| ensures GrantOk(w', k) {
      if k < |w.log| {
        assert w'.log[..|w.log|][k] == w.log[k];
        OldGrantOk(w, w', t, k);
      }
    }
  }

  /** Resets under way are as many as before, and so are the eras. */
  lemma StillPending(w: World, w': World, t: Tid, c: Bid)
    requires Shaped(w) && t in w.threads && w'.threads.Keys == w.threads.Keys
    requires forall u :: u in w.threads && u != t ==> w'.threads[u] == w.threads[u]
    requires !w.threads[t].pc.Resetting? && !w'.threads[t].pc.Resetting?
    requires c in w.bufs && c in w.shadows && c in w'.bufs && c in w'.shadows && PendingOk(w, c)
    requires w'.bufs[c].generation == w.bufs[c].generation && Era(w'.shadows[c]) == Era(w.shadows[c])
    ensures PendingOk(w', c)
  {
    assert Pending(w'.threads, c) == Pending(w.threads, c);
  }

  ghost predicate CanServe(w: World, t: Tid, b: Bid, layout: Layout) {
    && Inv(w)
    && t in w.threads && b in w.bufs && !w.threads[t].pc.Resetting?
    && layout.align > 0 && layout.size <= MAX_LOCKFREE_ALLOCATION
    && w.threads[t].slab.owner == Some(b) && w.threads[t].slab.generation == w.bufs[b].generation
  }

  lemma ServeActs(w: World, t: Tid, b: Bid, layout: Layout)
    requires CanServe(w, t, b, layout)
    ensures Serve(w, t, b, layout).1 ==> ActedBy(w, Serve(w, t, b, layout).0, t)
  {
    var (w', served) := Serve(w, t, b, layout);
    if served {
      ServeFrame(w, t, b, layout);
      forall c | c in w.bufs ensures After(w, w', c, t) {
        ServeBuffer(w, t, b, layout, c);
      }
    }
  }

  lemma ServeFrame(w: World, t: Tid, b: Bid, layout: Layout)
    requires Shaped(w) && t in w.threads && b in w.bufs && layout.align > 0
    ensures Framed(w, Serve(w, t, b, layout).0, t)
  {
  }

  lemma ServeBuffer(w: World, t: Tid, b: Bid, layout: Layout, c: Bid)
    requires CanServe(w, t, b, layout) && Serve(w, t, b, layout).1 && c in w.bufs
    ensures var w' := Serve(w, t, b, layout).0; Shaped(w') && c in w'.bufs && After(w, w', c, t)
  {
    var w' := Serve(w, t, b, layout).0;
    ServedRange(w, t, b, layout);
    assert BufferOk(w, c) && PendingOk(w, c);
    StillPending(w, w', t, c);
    SameLayers(w.bufs[c], w.shadows[c], w.shadows[c], w.shadows[c], t);
    if c == b {
      SameWhere(w.bufs[c], w'.bufs[c], w'.shadows[c]);
    }
  }

  /** The bytes served are the slab's own. */
  lemma ServedRange(w: World, t: Tid, b: Bid, layout: Layout)
    requires CanServe(w, t, b, layout) && Serve(w, t, b, layout).1
    ensures var slab := w.threads[t].slab;
            var start := AlignUp(slab.offset, layout.align);
            var shadow' := Repaint(w.shadows[b], slab.generation, start, start + layout.size, Granted(|w.log|), 0);
            && w.threads[t].carved == slab.generation && start + layout.size <= slab.end
            && Serve(w, t, b, layout).0.shadows == w.shadows[b := shadow']
            && Backed(w.bufs[b], shadow') && LayersMoved(w.shadows[b], shadow', t)
  {
    var slab := w.threads[t].slab;
    var start := AlignUp(slab.offset, layout.align);
    assert SlabOk(w, t) && BufferOk(w, b);
    RepaintOwned(w.bufs[b], w.shadows[b], slab.generation, start, start + layout.size, Granted(|w.log|), 0, t, Slab(t));
  }

  lemma ServeLocal(w: World, t: Tid, b: Bid, layout: Layout)
    requires CanServe(w, t, b, layout)
    ensures var (w', served) := Serve(w, t, b, layout);
            served ==>
              && Shaped(w') && t in w'.threads && SlabOk(w', t) && PcOk(w', t)
              && |w'.log| == |w.log| + 1 && w'.log[..|w.log|] == w.log && GrantOk(w', |w.log|)
  {
    var (w', served) := Serve(w, t, b, layout);
    if served {
      ServedRange(w, t, b, layout);
      assert SlabOk(w, t) && BufferOk(w, b);
    }
  }

  /** Serving from a slab of the current generation. */
  lemma ServeKeepsInv(w: World, t: Tid, b: Bid, layout: Layout)
    requires CanServe(w, t, b, layout)
    ensures Serve(w, t, b, layout).1 ==> Inv(Serve(w, t, b, layout).0)
  {
    var (w', served) := Serve(w, t, b, layout);
    if served {
      ServeActs(w, t, b, layout);
      ServeLocal(w, t, b, layout);
      Assemble(w, w', t);
    }
  }

  // ----- each action keeps the invariant -----

  /** A step of `t` that leaves offsets, generations and tags alone. */
  ghost predicate Quiet(w: World, w': World, t: Tid) {
    && Shaped(w) && Shaped(w') && t in w.threads
    && w'.threads.Keys == w.threads.Keys
    && (forall u :: u in w.threads && u != t ==> w'.threads[u] == w.threads[u])
    && !w.threads[t].pc.Resetting? && !w'.threads[t].pc.Resetting?
    && w'.log == w.log && w'.bufs.Keys == w.bufs.Keys
    && forall c :: c in w.bufs ==>
         w'.bufs[c] == w.bufs[c].(stats := w'.bufs[c].stats) && w'.shadows[c].layers == w.shadows[c].layers
  }

  lemma QuietActs(w: World, w': World, t: Tid)
    requires Inv(w) && Quiet(w, w', t)
    ensures ActedBy(w, w', t)
  {
    forall c | c in w.bufs ensures After(w, w', c, t) {
      QuietBuffer(w, w', t, c);
    }
  }

  lemma QuietBuffer(w: World, w': World, t: Tid, c: Bid)
    requires Inv(w) && Quiet(w, w', t) && c in w.bufs
    ensures After(w, w', c, t)
  {
    assert BufferOk(w, c) && PendingOk(w, c);
    StillPending(w, w', t, c);
    SameLayers(w.bufs[c], w.shadows[c], w.shadows[c], w'.shadows[c], t);
  }

  lemma QuietKeepsInv(w: World, w': World, t: Tid)
    requires Inv(w) && Quiet(w, w', t) && SlabOk(w', t) && PcOk(w', t)
    ensures Inv(w')
  {
    QuietActs(w, w', t);
    Assemble(w, w', t);
  }

  lemma StartKeepsInv(w: World, t: Tid, b: Bid, layout: Layout)
    requires Inv(w) && Possible(w, Start(t, b, layout))
    ensures Inv(StartNext(w, t, b, layout))
  {
    StartQuiet(w, t, b, layout);
    QuietKeepsInv(w, StartNext(w, t, b, layout), t);
  }

  lemma StartQuiet(w: World, t: Tid, b: Bid, layout: Layout)
    requires Inv(w) && Possible(w, Start(t, b, layout))
    ensures var w' := StartNext(w, t, b, layout); Quiet(w, w', t) && SlabOk(w', t) && PcOk(w', t)
  {
    assert SlabOk(w, t);
  }

  lemma ReadsKeepInv(w: World, a: Action)
    requires Inv(w) && Enabled(w, a) && (a.ReadGeneration? || a.ReadGenerationAgain?)
    ensures Inv(Next(w, a))
  {
    assert SlabOk(w, a.t) && PcOk(w, a.t);
    QuietKeepsInv(w, Next(w, a), a.t);
  }

  lemma DropSlabKeepsInv(w: World, t: Tid)
    requires Inv(w) && t in w.threads && w.threads[t].pc.GenRead?
    ensures Inv(SetSlab(w, t, EMPTY_SLAB, 0))
  {
    assert PcOk(w, t);
    QuietKeepsInv(w, SetSlab(w, t, EMPTY_SLAB, 0), t);
  }

  lemma BeginRefillKeepsInv(w: World, t: Tid)
    requires Inv(w) && t in w.threads && w.threads[t].pc.GenRead?
    ensures Inv(BeginRefill(w, t, w.threads[t].pc.buf, w.threads[t].pc.layout))
  {
    BeginRefillQuiet(w, t);
    QuietKeepsInv(w, BeginRefill(w, t, w.threads[t].pc.buf, w.threads[t].pc.layout), t);
  }

  lemma BeginRefillQuiet(w: World, t: Tid)
    requires Inv(w) && t in w.threads && w.threads[t].pc.GenRead?
    ensures var w' := BeginRefill(w, t, w.threads[t].pc.buf, w.threads[t].pc.layout);
            Quiet(w, w', t) && SlabOk(w', t) && PcOk(w', t)
  {
    assert SlabOk(w, t) && PcOk(w, t);
  }

  lemma TrySlabKeepsInv(w: World, t: Tid)
    requires Inv(w) && Possible(w, TrySlab(t))
    ensures Inv(TrySlabNext(w, t))
  {
    var pc := w.threads[t].pc;
    assert PcOk(w, t);
    if w.threads[t].slab.Matches(pc.buf, pc.gen) {
      if pc.gen == w.bufs[pc.buf].generation {
        ServeKeepsInv(w, t, pc.buf, pc.layout);
      }
      BeginRefillKeepsInv(w, t);
    } else {
      DropSlabKeepsInv(w, t);
      BeginRefillKeepsInv(SetSlab(w, t, EMPTY_SLAB, 0), t);
    }
  }

  lemma LoadKeepsInv(w: World, t: Tid)
    requires Inv(w) && Possible(w, LoadOffset(t))
    ensures Inv(LoadNext(w, t))
  {
    LoadQuiet(w, t);
    QuietKeepsInv(w, LoadNext(w, t), t);
  }

  lemma LoadQuiet(w: World, t: Tid)
    requires Inv(w) && Possible(w, LoadOffset(t))
    ensures Quiet(w, LoadNext(w, t), t) && SlabOk(LoadNext(w, t), t) && PcOk(LoadNext(w, t), t)
  {
    assert SlabOk(w, t) && PcOk(w, t) && BufferOk(w, w.threads[t].pc.buf);
    AlignUpOfMultiple(w.bufs[w.threads[t].pc.buf].offset, LOCKFREE_ALIGNMENT);
  }

  /** The CAS of `t` is about to win. */
  ghost predicate CanClaim(w: World, t: Tid) {
    && Inv(w) && Possible(w, Cas(t))
    && w.bufs[w.threads[t].pc.buf].offset == w.threads[t].pc.current
  }

  lemma ClaimedBlock(w: World, t: Tid)
    requires CanClaim(w, t)
    ensures var pc := w.threads[t].pc;
            var end := pc.current + BlockSize(pc.layout.size);
            && AlignUp(pc.current, LOCKFREE_ALIGNMENT) == pc.current
            && end <= LOCKFREE_BUFFER_SIZE && end % LOCKFREE_ALIGNMENT == 0 && pc.current + SLAB_MIN_BLOCK <= end
  {
    var pc := w.threads[t].pc;
    assert PcOk(w, t);
    AlignUpOfMultiple(pc.current, LOCKFREE_ALIGNMENT);
    BlockSizeBounds(pc.layout.size);
  }

  lemma ClaimActs(w: World, t: Tid)
    requires CanClaim(w, t)
    ensures ActedBy(w, ClaimNext(w, t), t)
  {
    var w' := ClaimNext(w, t);
    ClaimFrame(w, t);
    forall c | c in w.bufs ensures After(w, w', c, t) {
      ClaimBuffer(w, t, c);
    }
  }

  lemma ClaimFrame(w: World, t: Tid)
    requires Shaped(w) && Possible(w, Cas(t))
    ensures Framed(w, ClaimNext(w, t), t)
  {
  }

  lemma ClaimBuffer(w: World, t: Tid, c: Bid)
    requires CanClaim(w, t) && c in w.bufs
    ensures Shaped(ClaimNext(w, t)) && c in ClaimNext(w, t).bufs && After(w, ClaimNext(w, t), c, t)
  {
    ClaimedLayer(w, t);
    assert BufferOk(w, c) && PendingOk(w, c);
    StillPending(w, ClaimNext(w, t), t, c);
    SameLayers(w.bufs[c], w.shadows[c], w.shadows[c], w.shadows[c], t);
  }

  lemma ClaimedLayer(w: World, t: Tid)
    requires CanClaim(w, t)
    ensures var b, w' := w.threads[t].pc.buf, ClaimNext(w, t);
            && b in w'.bufs && b in w'.shadows && Backed(w'.bufs[b], w'.shadows[b])
            && LayersMoved(w.shadows[b], w'.shadows[b], t)
  {
    var pc := w.threads[t].pc;
    ClaimedBlock(w, t);
    assert BufferOk(w, pc.buf);
    RepaintUnclaimed(w.bufs[pc.buf], w.shadows[pc.buf], pc.current, pc.current + BlockSize(pc.layout.size),
                     Flight(t), 1, t);
  }

  lemma ClaimLocal(w: World, t: Tid)
    requires CanClaim(w, t) && Shaped(ClaimNext(w, t))
    ensures SlabOk(ClaimNext(w, t), t) && PcOk(ClaimNext(w, t), t)
  {
    var pc, slab := w.threads[t].pc, w.threads[t].slab;
    ClaimedBlock(w, t);
    assert SlabOk(w, t) && PcOk(w, t) && BufferOk(w, pc.buf);
    if slab.owner.Some? {
      ClaimKeepsSlab(w, t, slab.owner.value, slab.generation);
    }
  }

  lemma ClaimKeepsSlab(w: World, t: Tid, b: Bid, e: nat)
    requires CanClaim(w, t) && b in w.bufs
    requires Holds(Tags(w, b, e), w.threads[t].slab.offset, w.threads[t].slab.end, Slab(t))
    ensures Holds(Tags(ClaimNext(w, t), b, e), w.threads[t].slab.offset, w.threads[t].slab.end, Slab(t))
  {
    var pc, slab := w.threads[t].pc, w.threads[t].slab;
    ClaimedBlock(w, t);
    assert BufferOk(w, pc.buf);
    if b == pc.buf {
      var end := pc.current + BlockSize(pc.layout.size);
      RepaintElsewhere(w.shadows[b], Era(w.shadows[b]), pc.current, end, Flight(t), 1,
                       e, slab.offset, slab.end, Slab(t));
    }
  }

  lemma ClaimKeepsInv(w: World, t: Tid)
    requires CanClaim(w, t)
    ensures Inv(ClaimNext(w, t))
  {
    ClaimActs(w, t);
    ClaimLocal(w, t);
    Assemble(w, ClaimNext(w, t), t);
  }

  lemma CasKeepsInv(w: World, t: Tid)
    requires Inv(w) && Possible(w, Cas(t))
    ensures Inv(CasNext(w, t))
  {
    assert SlabOk(w, t) && PcOk(w, t);
    if w.bufs[w.threads[t].pc.buf].offset == w.threads[t].pc.current {
      ClaimKeepsInv(w, t);
    } else {
      QuietKeepsInv(w, CasNext(w, t), t);
    }
  }

  lemma InstalledActs(w: World, t: Tid)
    requires Inv(w) && Possible(w, Install(t))
    ensures ActedBy(w, Installed(w, t), t)
  {
    var w' := Installed(w, t);
    InstalledFrame(w, t);
    forall c | c in w.bufs ensures After(w, w', c, t) {
      InstalledBuffer(w, t, c);
    }
  }

  lemma InstalledFrame(w: World, t: Tid)
    requires Shaped(w) && Possible(w, Install(t))
    ensures Framed(w, Installed(w, t), t)
  {
  }

  lemma InstalledBuffer(w: World, t: Tid, c: Bid)
    requires Inv(w) && Possible(w, Install(t)) && c in w.bufs
    ensures Shaped(Installed(w, t)) && c in Installed(w, t).bufs && After(w, Installed(w, t), c, t)
  {
    var w' := Installed(w, t);
    InstalledLayer(w, t);
    assert BufferOk(w, c) && PendingOk(w, c);
    StillPending(w, w', t, c);
    SameLayers(w.bufs[c], w.shadows[c], w.shadows[c], w.shadows[c], t);
    if c == w.threads[t].pc.buf {
      SameWhere(w.bufs[c], w'.bufs[c], w'.shadows[c]);
    }
  }

  lemma SameWhere(buf: Buffer, buf': Buffer, shadow: Shadow)
    requires Backed(buf, shadow) && buf'.offset == buf.offset && buf'.generation == buf.generation
    ensures Backed(buf', shadow)
  {
  }

  lemma InstalledLayer(w: World, t: Tid)
    requires Inv(w) && Possible(w, Install(t))
    ensures var b, w' := w.threads[t].pc.buf, Installed(w, t);
            && b in w'.shadows && Backed(w.bufs[b], w'.shadows[b]) && LayersMoved(w.shadows[b], w'.shadows[b], t)
            && Era(w'.shadows[b]) == Era(w.shadows[b])
  {
    var pc := w.threads[t].pc;
    assert PcOk(w, t) && BufferOk(w, pc.buf);
    RepaintOwned(w.bufs[pc.buf], w.shadows[pc.buf], pc.epoch, pc.start, pc.end, Slab(t), 0, t, Flight(t));
    var painted := Repaint(w.shadows[pc.buf], pc.epoch, pc.start, pc.end, Slab(t), 0);
    assert Installed(w, t).shadows[pc.buf].layers == painted.layers;
    SameLayers(w.bufs[pc.buf], w.shadows[pc.buf], painted, Installed(w, t).shadows[pc.buf], t);
  }

  lemma SameLayers(buf: Buffer, shadow: Shadow, x: Shadow, y: Shadow, t: Tid)
    requires x.layers == y.layers
    ensures Backed(buf, x) ==> Backed(buf, y)
    ensures LayersMoved(shadow, x, t) ==> LayersMoved(shadow, y, t)
  {
    assert forall e :: LayerTags(x, e) == LayerTags(y, e);
  }

  lemma InstalledLocal(w: World, t: Tid)
    requires Inv(w) && Possible(w, Install(t)) && Shaped(Installed(w, t))
    ensures SlabOk(Installed(w, t), t) && PcOk(Installed(w, t), t)
  {
    assert PcOk(w, t) && BufferOk(w, w.threads[t].pc.buf);
  }

  lemma InstalledKeepsInv(w: World, t: Tid)
    requires Inv(w) && Possible(w, Install(t))
    ensures Inv(Installed(w, t))
  {
    InstalledActs(w, t);
    InstalledLocal(w, t);
    Assemble(w, Installed(w, t), t);
  }

  /** A block of this generation can serve; one from before a reset does not. */
  lemma InstallKeepsInv(w: World, t: Tid)
    requires Inv(w) && Possible(w, Install(t))
    ensures Inv(InstallNext(w, t))
  {
    var pc := w.threads[t].pc;
    assert PcOk(w, t);
    InstalledKeepsInv(w, t);
    if pc.gen == w.bufs[pc.buf].generation {
      ServeKeepsInv(Installed(w, t), t, pc.buf, pc.layout);
    }
    MissKeepsInv(Installed(w, t), t, pc.buf, pc.layout);
  }

  lemma MissKeepsInv(w: World, t: Tid, b: Bid, layout: Layout)
    requires Inv(w) && t in w.threads && !w.threads[t].pc.Resetting? && b in w.bufs
    ensures Inv(Returns(Count(w, b, 0, 0, 1, 0), t, b, layout, Misaligned))
  {
    assert SlabOk(w, t) && PcOk(w, t);
    QuietKeepsInv(w, Returns(Count(w, b, 0, 0, 1, 0), t, b, layout, Misaligned), t);
  }

  /** The first store of a reset begins a new era. */
  lemma StoreOffsetKeepsInv(w: World, t: Tid, b: Bid)
    requires Inv(w) && Possible(w, StoreOffset(t, b))
    ensures Inv(StoreOffsetNext(w, t, b))
  {
    var w', slab := StoreOffsetNext(w, t, b), w.threads[t].slab;
    StoreOffsetBuffers(w, t, b);
    assert SlabOk(w, t);
    if slab.owner.Some? {
      assert BufferOk(w, slab.owner.value);
      assert Tags(w', slab.owner.value, slab.generation) == Tags(w, slab.owner.value, slab.generation);
    }
    Assemble(w, w', t);
  }

  lemma StoreOffsetBuffers(w: World, t: Tid, b: Bid)
    requires Inv(w) && Possible(w, StoreOffset(t, b))
    ensures ActedBy(w, StoreOffsetNext(w, t, b), t)
  {
    var w' := StoreOffsetNext(w, t, b);
    StoreOffsetFrame(w, t, b);
    forall c | c in w.bufs ensures After(w, w', c, t) {
      StoreOffsetBuffer(w, t, b, c);
    }
  }

  lemma StoreOffsetFrame(w: World, t: Tid, b: Bid)
    requires Shaped(w) && Possible(w, StoreOffset(t, b))
    ensures Framed(w, StoreOffsetNext(w, t, b), t)
  {
  }

  lemma StoreOffsetBuffer(w: World, t: Tid, b: Bid, c: Bid)
    requires Inv(w) && Possible(w, StoreOffset(t, b)) && c in w.bufs
    ensures var w' := StoreOffsetNext(w, t, b); Shaped(w') && c in w'.bufs && After(w, w', c, t)
  {
    var w' := StoreOffsetNext(w, t, b);
    assert BufferOk(w, c) && PendingOk(w, c);
    OneMorePending(w.threads, w'.threads, t, b, c);
    if c == b {
      NewEra(w.bufs[b], w.shadows[b], t);
    } else {
      SameLayers(w.bufs[c], w.shadows[c], w.shadows[c], w'.shadows[c], t);
    }
  }

  lemma OneMorePending(threads: map<Tid, Thread>, threads': map<Tid, Thread>, t: Tid, b: Bid, c: Bid)
    requires t in threads && !threads[t].pc.Resetting?
    requires threads' == threads[t := threads[t].(pc := Resetting(b))]
    ensures |Pending(threads', c)| == |Pending(threads, c)| + if c == b then 1 else 0
  {
    assert Pending(threads', c) == if c == b then Pending(threads, c) + {t} else Pending(threads, c);
  }

  lemma NewEra(buf: Buffer, shadow: Shadow, t: Tid)
    requires Backed(buf, shadow)
    ensures var shadow' := shadow.(layers := shadow.layers + [FreshLayer()]);
            && Backed(buf.(offset := 0), shadow') && LayersMoved(shadow, shadow', t)
            && Era(shadow') == Era(shadow) + 1
  {
    var shadow' := shadow.(layers := shadow.layers + [FreshLayer()]);
    assert forall e :: 0 <= e < |shadow.layers| ==> LayerTags(shadow', e) == LayerTags(shadow, e);
    assert LayerTags(shadow', |shadow.layers|) == FreshLayer().tags;
  }

  /** The second store of a harmless reset makes every slab, grant and unfinished
      block of the era before it stale. */
  lemma BumpKeepsInv(w: World, t: Tid)
    requires Inv(w) && Enabled(w, BumpGeneration(t))
    ensures Inv(BumpNext(w, t))
  {
    var w' := BumpNext(w, t);
    BumpBuffers(w, t);
    forall u | u in w'.threads ensures SlabOk(w', u) && PcOk(w', u) {
      BumpThread(w, t, u);
    }
    forall k | 0 <= k < |w'.log| ensures GrantOk(w', k) {
      assert GrantOk(w, k);
    }
  }

  lemma BumpBuffers(w: World, t: Tid)
    requires Inv(w) && Possible(w, BumpGeneration(t))
    ensures var w' := BumpNext(w, t);
            Shaped(w') && BuffersOk(w')
  {
    var b, w' := w.threads[t].pc.buf, BumpNext(w, t);
    forall c | c in w.bufs ensures BufferOk(w', c) && PendingOk(w', c) {
      assert BufferOk(w, c) && PendingOk(w, c);
      OneLessPending(w.threads, w'.threads, t, b, c);
      if c == b {
        NextGeneration(w.bufs[b], w.shadows[b], w'.bufs[b], w'.shadows[b]);
      }
    }
  }

  lemma OneLessPending(threads: map<Tid, Thread>, threads': map<Tid, Thread>, t: Tid, b: Bid, c: Bid)
    requires t in threads && threads[t].pc == Resetting(b)
    requires t in threads' && threads' == threads[t := threads'[t]] && threads'[t].pc == Idle
    ensures |Pending(threads, c)| == |Pending(threads', c)| + if c == b then 1 else 0
  {
    assert t in Pending(threads, b);
    assert Pending(threads', c) == if c == b then Pending(threads, c) - {t} else Pending(threads, c);
  }

  lemma NextGeneration(buf: Buffer, shadow: Shadow, buf': Buffer, shadow': Shadow)
    requires Backed(buf, shadow) && buf.generation < Era(shadow) && shadow'.layers == shadow.layers
    requires buf'.offset == buf.offset && buf'.generation == buf.generation + 1
    ensures Backed(buf', shadow')
  {
    assert forall e :: LayerTags(shadow', e) == LayerTags(shadow, e);
  }

  lemma BumpThread(w: World, t: Tid, u: Tid)
    requires Inv(w) && Enabled(w, BumpGeneration(t)) && u in w.threads && Shaped(BumpNext(w, t))
    ensures u in BumpNext(w, t).threads && SlabOk(BumpNext(w, t), u) && PcOk(BumpNext(w, t), u)
  {
    assert SlabOk(w, u) && PcOk(w, u);
    assert !Harmful(w.threads[u], w.threads[t].pc.buf, w.bufs[w.threads[t].pc.buf].generation);
  }

  lemma NextKeepsInv(w: World, a: Action)
    requires Inv(w) && Enabled(w, a)
    ensures Inv(Next(w, a))
  {
    match a
    case Start(t, b, layout) => StartKeepsInv(w, t, b, layout);
    case ReadGeneration(_) => ReadsKeepInv(w, a);
    case TrySlab(t) => TrySlabKeepsInv(w, t);
    case LoadOffset(t) => LoadKeepsInv(w, t);
    case Cas(t) => CasKeepsInv(w, t);
    case ReadGenerationAgain(_) => ReadsKeepInv(w, a);
    case Install(t) => InstallKeepsInv(w, t);
    case StoreOffset(t, b) => StoreOffsetKeepsInv(w, t, b);
    case BumpGeneration(t) => BumpKeepsInv(w, t);
  }

  lemma ServeUntouched(w: World, u: Tid, b: Bid, layout: Layout, t: Tid)
    requires u in w.threads && b in w.bufs && b in w.shadows && layout.align > 0 && t in w.threads && t != u
    ensures var w' := Serve(w, u, b, layout).0; t in w'.threads && w'.threads[t] == w.threads[t]
  {
  }

  lemma OthersUntouched(w: World, a: Action, t: Tid)
    requires Shaped(w) && Possible(w, a) && t in w.threads && a.t != t
    ensures t in Next(w, a).threads && Next(w, a).threads[t] == w.threads[t]
  {
    var u, pc := a.t, w.threads[a.t].pc;
    if a.TrySlab? {
      ServeUntouched(w, u, pc.buf, pc.layout, t);
    } else if a.Install? {
      ServeUntouched(Installed(w, u), u, pc.buf, pc.layout, t);
    }
  }

  lemma ServeKeepsKeys(w: World, t: Tid, b: Bid, layout: Layout)
    requires t in w.threads && b in w.bufs && b in w.shadows && layout.align > 0
    ensures Serve(w, t, b, layout).0.threads.Keys == w.threads.Keys
  {
  }

  lemma NextKeepsKeys(w: World, a: Action)
    requires Shaped(w) && Possible(w, a)
    ensures Next(w, a).threads.Keys == w.threads.Keys
  {
    var t, pc := a.t, w.threads[a.t].pc;
    if a.TrySlab? {
      ServeKeepsKeys(w, t, pc.buf, pc.layout);
    } else if a.Install? {
      ServeKeepsKeys(Installed(w, t), t, pc.buf, pc.layout);
    }
  }

  // ----- whole runs -----

  /** An interleaving of guarded steps from a state in which nothing has been
      allocated. */
  ghost predicate IsRun(trace: seq<World>, acts: seq<Action>) {
    && |trace| == |acts| + 1
    && Init(trace[0])
    && forall i {:trigger Steps(trace, acts, i)} :: 0 < i < |trace| ==> Steps(trace, acts, i)
  }

  /** State `i` of a run comes from the one before it by one guarded step. */
  ghost predicate Steps(trace: seq<World>, acts: seq<Action>, i: nat)
    requires 0 < i < |trace| == |acts| + 1
  {
    var w := trace[i - 1];
    Shaped(w) && Enabled(w, acts[i - 1]) && trace[i] == Next(w, acts[i - 1])
  }

  lemma {:induction false} RunKeepsInv(trace: seq<World>, acts: seq<Action>, i: nat)
    requires IsRun(trace, acts) && i < |trace|
    ensures Inv(trace[i])
  {
    if i == 0 {
      InitInv(trace[0]);
    } else {
      RunKeepsInv(trace, acts, i - 1);
      assert Steps(trace, acts, i);
      NextKeepsInv(trace[i - 1], acts[i - 1]);
    }
  }

  /** Every state of every such interleaving is safe. */
  lemma EveryInterleavingIsSafe(trace: seq<World>, acts: seq<Action>)
    requires IsRun(trace, acts)
    ensures forall i :: 0 <= i < |trace| ==> Safe(trace[i])
  {
    forall i | 0 <= i < |trace| ensures Safe(trace[i]) {
      RunKeepsInv(trace, acts, i);
      InvSafe(trace[i]);
    }
  }

  /** Grants of one era are apart, because a byte has one tag in it. */
  lemma GrantsApart(w: World, j: nat, k: nat)
    requires Inv(w) && j < k < |w.log|
    ensures Apart(w.log[j], w.log[k])
  {
    var g, h := w.log[j], w.log[k];
    assert GrantOk(w, j) && GrantOk(w, k) && BufferOk(w, g.buf);
    var tags := Tags(w, g.buf, g.generation);
    var i := if h.start > g.start then h.start else g.start;
    if g.buf == h.buf && g.generation == h.generation && 0 <= i < |tags| && g.start <= i < g.start + g.layout.size {
      assert tags[i] == Granted(j);
    }
  }

  lemma InvSafe(w: World)
    requires Inv(w)
    ensures Safe(w)
  {
    forall j, k | 0 <= j < k < |w.log| ensures Apart(w.log[j], w.log[k]) {
      GrantsApart(w, j, k);
    }
    forall k | 0 <= k < |w.log| ensures SafeGrant(w.log[k]) {
      assert GrantOk(w, k);
    }
  }

  /** Every grant is from a block of the buffer's present generation, so a slab
      whose block was claimed before a reset serves no request after it. */
  lemma StaleSlabNeverServes(trace: seq<World>, acts: seq<Action>, i: nat, t: Tid)
    requires IsRun(trace, acts) && i < |acts| && acts[i].t == t && t in trace[i].threads
    requires |trace[i + 1].log| > |trace[i].log|
    ensures var g := trace[i + 1].log[|trace[i].log|];
            g.buf in trace[i].bufs && g.generation == g.carved == trace[i].bufs[g.buf].generation
  {
    RunKeepsInv(trace, acts, i);
    RunKeepsInv(trace, acts, i + 1);
    RunStep(trace, acts, i + 1);
    GrantIsCurrent(trace[i], acts[i]);
    assert GrantOk(trace[i + 1], |trace[i].log|);
  }

  /** A grant carries the generation of its buffer, which granting leaves alone. */
  lemma GrantIsCurrent(w: World, a: Action)
    requires Shaped(w) && Possible(w, a) && |Next(w, a).log| > |w.log|
    ensures var g := Next(w, a).log[|w.log|];
            g.buf in w.bufs && g.generation == w.bufs[g.buf].generation
  {
  }

  lemma RunStep(trace: seq<World>, acts: seq<Action>, j: nat)
    requires IsRun(trace, acts) && 0 < j < |trace|
    ensures Shaped(trace[j - 1]) && Enabled(trace[j - 1], acts[j - 1]) && trace[j] == Next(trace[j - 1], acts[j - 1])
  {
    assert Steps(trace, acts, j);
  }

  /** The block a refill claims always serves the request that claimed it,
      at the block's first byte, for alignments the buffer base guarantees. */
  lemma ClaimServesItsRequest(w: World, t: Tid)
    requires Inv(w) && Possible(w, Install(t))
    requires IsPow2(w.threads[t].pc.layout.align) && w.threads[t].pc.layout.align <= LOCKFREE_ALIGNMENT
    ensures var pc := w.threads[t].pc;
            InstallNext(w, t).log == w.log + [Grant(pc.buf, w.bufs[pc.buf].generation, pc.epoch, pc.start, pc.layout)]
  {
    var pc := w.threads[t].pc;
    assert PcOk(w, t);
    SmallPowerDivides64(pc.start, pc.layout.align);
    AlignUpOfMultiple(pc.start, pc.layout.align);
    BlockSizeBounds(pc.layout.size);
  }
}
