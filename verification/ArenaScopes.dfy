/** Structured use of the arena: scopes (RAII checkpoints), resets of any scope
    that is open, push/pop blocks, clearing, shrinking, and panics that unwind
    through scopes. */
module ArenaScopes {
  import opened Alignment
  import opened ArenaState
  import opened ArenaRuns
  import opened Options

  /** `ResetScope(k)` resets the `k`th open scope, counted from the outermost. */
  datatype Prog =
    | Alloc(layout: Layout, memory: bool)
    | Mark
    | Scoped(body: seq<Prog>)
    | ResetScope(k: nat)
    | PushOnly
    | PushPop(body: seq<Prog>)
    | ClearStack
    | ShrinkToFit
    | Panic

  /** How a program ends: normally, unwinding, or with the process aborted. */
  datatype Mode = Normal | Unwinding | Dead

  /** Only open scopes are reset; `depth` of them are. */
  predicate WellNested(p: Prog, depth: nat)
    decreases p, 1
  {
    match p
    case Alloc(layout, _) => layout.align > 0
    case Scoped(body) => AllWellNested(body, depth + 1)
    case ResetScope(k) => k < depth
    case PushPop(body) => AllWellNested(body, depth)
    case _ => true
  }

  predicate AllWellNested(ps: seq<Prog>, depth: nat)
    decreases ps, 0
  {
    ps == [] || (WellNested(ps[0], depth) && AllWellNested(ps[1..], depth))
  }

  /** A rewind whose assertions fail panics. */
  function RewindOrPanic(st: State, cp: Checkpoint, mode: Mode): (State, Mode) {
    if Rewindable(st, cp) then (RewindTo(st, cp), mode) else (st, Unwinding)
  }

  /** `scopes` holds the checkpoints of the open scopes, outermost first. */
  function Exec(p: Prog, st: State, scopes: seq<Checkpoint>): (State, Mode)
    requires WellNested(p, |scopes|)
    decreases p, 1
  {
    if st.chunks == [] then (st, Dead)
    else
      match p
      case Alloc(layout, memory) =>
        var (st1, out) := AllocateRaw(st, layout, memory); (st1, if out.Aborted? then Dead else Normal)
      case Mark => (Taken(st), Normal)
      case Scoped(body) =>
        var (st1, mode) := ExecAll(body, Taken(st), scopes + [CheckpointOf(st)]);
        if mode.Dead? then (st1, Dead) else RewindOrPanic(st1, CheckpointOf(st), mode)
      case ResetScope(k) => RewindOrPanic(st, scopes[k], Normal)
      case PushOnly => (Pushed(st), Normal)
      case PushPop(body) =>
        var (st1, mode) := ExecAll(body, Pushed(st), scopes);
        if !mode.Normal? then (st1, mode)
        else
          (match PopAndRewind(st1)
           case Some(st2) => (st2, Normal)
           case None => (st1, Unwinding))
      case ClearStack => (Cleared(st), Normal)
      case ShrinkToFit => (ShrunkState(st), Normal)
      case Panic => (st, Unwinding)
  }

  function ExecAll(ps: seq<Prog>, st: State, scopes: seq<Checkpoint>): (State, Mode)
    requires AllWellNested(ps, |scopes|)
    decreases ps, 0
  {
    if ps == [] then (st, Normal)
    else
      var (st1, mode) := Exec(ps[0], st, scopes);
      if mode.Normal? then ExecAll(ps[1..], st1, scopes) else (st1, mode)
  }

  // ----- programs and runs -----

  /** The operation of a run that a program consisting of one call performs. */
  function OpOf(p: Prog): Option<Op> {
    match p
    case Alloc(layout, memory) => Some(Allocate(layout, memory))
    case Mark => Some(TakeCheckpoint)
    case PushOnly => Some(Push)
    case ClearStack => Some(Clear)
    case ShrinkToFit => Some(Shrink)
    case _ => None
  }

  /** Programs of one call do what the operations of runs do. */
  lemma CallIsStep(p: Prog, r: Run, scopes: seq<Checkpoint>)
    requires WellNested(p, |scopes|) && OpOf(p).Some? && r.st.chunks != []
    ensures Allowed(r, OpOf(p).value)
    ensures var (r', answer) := Step(r, OpOf(p).value);
            Exec(p, r.st, scopes) == (r'.st, if answer == Allocated(Aborted) then Dead else Normal)
  {
  }

  /** So does resetting the scope of a live checkpoint. */
  lemma ResetIsStep(k: nat, r: Run, scopes: seq<Checkpoint>, m: nat)
    requires k < |scopes| && Allowed(r, Rewind(m)) && r.marks[m] == scopes[k]
    ensures Exec(ResetScope(k), r.st, scopes) == (Step(r, Rewind(m)).0.st, Normal)
  {
  }

  /** A panic ends a sequence of programs: what follows it does not happen. */
  lemma {:induction false} PanicEnds(ps: seq<Prog>, rest: seq<Prog>, st: State, scopes: seq<Checkpoint>)
    requires AllWellNested(ps, |scopes|) && AllWellNested(rest, |scopes|)
    requires ExecAll(ps, st, scopes).1.Normal? && ExecAll(ps, st, scopes).0.chunks != []
    ensures AllWellNested(ps + [Panic] + rest, |scopes|)
    ensures ExecAll(ps + [Panic] + rest, st, scopes) == (ExecAll(ps, st, scopes).0, Unwinding)
    decreases ps
  {
    var all := ps + [Panic] + rest;
    if ps == [] {
      assert all[1..] == rest && all[0] == Panic;
    } else {
      assert all[0] == ps[0] && all[1..] == ps[1..] + [Panic] + rest;
      PanicEnds(ps[1..], rest, Exec(ps[0], st, scopes).0, scopes);
    }
  }

  /** A panic inside a push/pop block skips the pop: the pushed checkpoint and
      what was allocated since stay. */
  lemma PanicSkipsPop(ps: seq<Prog>, rest: seq<Prog>, st: State, scopes: seq<Checkpoint>)
    requires AllWellNested(ps, |scopes|) && AllWellNested(rest, |scopes|) && st.chunks != []
    requires ExecAll(ps, Pushed(st), scopes).1.Normal? && ExecAll(ps, Pushed(st), scopes).0.chunks != []
    ensures AllWellNested(ps + [Panic] + rest, |scopes|)
    ensures Exec(PushPop(ps + [Panic] + rest), st, scopes) == (ExecAll(ps, Pushed(st), scopes).0, Unwinding)
  {
    PanicEnds(ps, rest, Pushed(st), scopes);
  }

  // ----- what a program may do -----

  /** The scopes that a program names in its resets. */
  function Resets(p: Prog): set<nat>
    decreases p, 1
  {
    match p
    case Scoped(body) => AllResets(body)
    case ResetScope(k) => {k}
    case PushPop(body) => AllResets(body)
    case _ => {}
  }

  function AllResets(ps: seq<Prog>): set<nat>
    decreases ps, 0
  {
    if ps == [] then {} else Resets(ps[0]) + AllResets(ps[1..])
  }

  /** The stack is not cleared, and no scope is reset from inside a push/pop
      block that it encloses. */
  predicate Tidy(p: Prog, depth: nat)
    decreases p, 1
  {
    match p
    case Scoped(body) => AllTidy(body, depth + 1)
    case PushPop(body) => AllTidy(body, depth) && forall k :: k in AllResets(body) ==> depth <= k
    case ClearStack => false
    case _ => true
  }

  predicate AllTidy(ps: seq<Prog>, depth: nat)
    decreases ps, 0
  {
    ps == [] || (Tidy(ps[0], depth) && AllTidy(ps[1..], depth))
  }

  /** `reset_and_shrink_to_fit` is not called. */
  predicate ShrinkFree(p: Prog)
    decreases p, 1
  {
    match p
    case Scoped(body) => AllShrinkFree(body)
    case PushPop(body) => AllShrinkFree(body)
    case ShrinkToFit => false
    case _ => true
  }

  predicate AllShrinkFree(ps: seq<Prog>)
    decreases ps, 0
  {
    ps == [] || (ShrinkFree(ps[0]) && AllShrinkFree(ps[1..]))
  }

  /** Outside scopes, every push has its pop. */
  predicate Matched(p: Prog)
    decreases p, 1
  {
    match p
    case PushOnly => false
    case PushPop(body) => AllMatched(body)
    case _ => true
  }

  predicate AllMatched(ps: seq<Prog>)
    decreases ps, 0
  {
    ps == [] || (Matched(ps[0]) && AllMatched(ps[1..]))
  }

  // ----- well-formed states -----

  /** The checkpoints on the stack are spent, and can be rewound to. */
  ghost predicate StackOk(st: State) {
    forall k :: 0 <= k < |st.checkpoints| ==>
      st.checkpoints[k].id < st.nextId && Rewindable(st, st.checkpoints[k])
  }

  ghost predicate Good(st: State) {
    Shaped(st) && StackOk(st)
  }

  /** Every state of every run is well formed. */
  lemma RunsAreGood(r: Run)
    requires Inv(r)
    ensures Good(r.st)
  {
    forall k | 0 <= k < |r.st.checkpoints|
      ensures r.st.checkpoints[k].id < r.st.nextId && Rewindable(r.st, r.st.checkpoints[k])
    {
      var cp := r.st.checkpoints[k];
      var m :| 0 <= m < |r.marks| && r.marks[m] == cp;
      assert MarkOk(r, r.marks[m]);
      assert ChunkOk(r.st.chunks[cp.chunkIndex]);
    }
  }

  lemma {:induction false} RetainMembers(stack: seq<Checkpoint>, id: nat, cp: Checkpoint)
    ensures cp in Retain(stack, id) <==> cp in stack && cp.id < id
  {
    if stack != [] {
      var n := |stack| - 1;
      RetainMembers(stack[..n], id, cp);
      assert stack == stack[..n] + [stack[n]];
    }
  }

  lemma {:induction false} RetainShortens(stack: seq<Checkpoint>, id: nat)
    ensures |Retain(stack, id)| <= |stack|
  {
    if stack != [] {
      RetainShortens(stack[..|stack| - 1], id);
    }
  }

  /** Checkpoints older than the target stay. */
  lemma {:induction false} RetainAfter(older: seq<Checkpoint>, newer: seq<Checkpoint>, id: nat)
    requires forall k :: 0 <= k < |older| ==> older[k].id < id
    ensures Retain(older + newer, id) == older + Retain(newer, id)
  {
    if newer != [] {
      var n := |newer| - 1;
      RetainAfter(older, newer[..n], id);
      assert (older + newer)[..|older| + n] == older + newer[..n];
    } else {
      RetainByIds(older, id, |older|);
      assert older + newer == older;
    }
  }

  /** Both states are well formed, and the first chunk is the same one. */
  ghost predicate Onward(st: State, st': State) {
    Good(st) && Good(st') && st'.chunks[0].capacity == st.chunks[0].capacity && st.nextId <= st'.nextId
  }

  lemma RewindOnward(st: State, cp: Checkpoint)
    requires Good(st) && Rewindable(st, cp)
    ensures Onward(st, RewindTo(st, cp))
  {
    var st' := RewindTo(st, cp);
    forall i | 0 <= i < |st'.chunks| ensures ChunkOk(st'.chunks[i]) {
      assert ChunkOk(st.chunks[i]);
    }
    forall k | 0 <= k < |st'.checkpoints|
      ensures st'.checkpoints[k].id < st'.nextId && Rewindable(st', st'.checkpoints[k])
    {
      RetainMembers(st.checkpoints, cp.id, st'.checkpoints[k]);
    }
  }

  /** On a well-formed state a pop fails only for want of a checkpoint. */
  lemma PopOnward(st: State)
    requires Good(st)
    ensures PopAndRewind(st).Some? <==> st.checkpoints != []
    ensures PopAndRewind(st).Some? ==> Onward(st, PopAndRewind(st).value)
  {
    if st.checkpoints != [] {
      var n := |st.checkpoints| - 1;
      var popped := st.(checkpoints := st.checkpoints[..n]);
      assert Good(popped);
      RewindOnward(popped, st.checkpoints[n]);
    }
  }

  /** What an allocation does: it bumps the current chunk, or adds one. */
  ghost predicate Bumped(st: State, st': State) {
    && st.current < |st.chunks| <= |st'.chunks|
    && (forall i :: 0 <= i < |st.chunks| && i != st.current ==> st'.chunks[i] == st.chunks[i])
    && st'.chunks[st.current].capacity == st.chunks[st.current].capacity
    && (st'.chunks[st.current].used != st.chunks[st.current].used ==>
          st.chunks[st.current].used < st.chunks[st.current].capacity)
    && (st'.current == st.current || st'.current == |st.chunks|)
    && st'.checkpoints == st.checkpoints && st'.nextId == st.nextId
  }

  lemma AllocBumps(st: State, layout: Layout, memory: bool)
    requires Good(st) && layout.align > 0
    ensures var (st', out) := AllocateRaw(st, layout, memory);
            !out.Aborted? ==> Onward(st, st') && Bumped(st, st')
  {
    if layout.size > 0 && st.chunks[st.current].Fit(layout).None? && memory {
      GrowthIsTight(layout.size);
      if layout.size <= MAX_CHUNK_SIZE {
        GrownAllocation(st, layout);
      } else {
        OversizeAborts(st, layout);
      }
    }
  }

  /** Every program keeps states well formed. */
  lemma {:induction false} ExecOnward(p: Prog, st: State, scopes: seq<Checkpoint>)
    requires WellNested(p, |scopes|) && Good(st)
    ensures var (st', mode) := Exec(p, st, scopes); !mode.Dead? ==> Onward(st, st')
    decreases p, 1
  {
    match p
    case Alloc(layout, memory) => AllocBumps(st, layout, memory);
    case Mark =>
    case Scoped(body) =>
      var cp := CheckpointOf(st);
      ExecAllOnward(body, Taken(st), scopes + [cp]);
      var (st1, mode) := ExecAll(body, Taken(st), scopes + [cp]);
      if !mode.Dead? && Rewindable(st1, cp) {
        RewindOnward(st1, cp);
      }
    case ResetScope(k) =>
      if Rewindable(st, scopes[k]) {
        RewindOnward(st, scopes[k]);
      }
    case PushOnly => PushedOnward(st);
    case PushPop(body) =>
      PushedOnward(st);
      ExecAllOnward(body, Pushed(st), scopes);
      var (st1, mode) := ExecAll(body, Pushed(st), scopes);
      if mode.Normal? {
        PopOnward(st1);
      }
    case ClearStack =>
    case ShrinkToFit => assert ChunkOk(st.chunks[0]);
    case Panic =>
  }

  lemma PushedOnward(st: State)
    requires Good(st)
    ensures Onward(st, Pushed(st))
  {
    assert ChunkOk(st.chunks[st.current]);
  }

  lemma {:induction false} ExecAllOnward(ps: seq<Prog>, st: State, scopes: seq<Checkpoint>)
    requires AllWellNested(ps, |scopes|) && Good(st)
    ensures var (st', mode) := ExecAll(ps, st, scopes); !mode.Dead? ==> Onward(st, st')
    decreases ps, 0
  {
    if ps != [] {
      ExecOnward(ps[0], st, scopes);
      var (st1, mode) := Exec(ps[0], st, scopes);
      if mode.Normal? {
        ExecAllOnward(ps[1..], st1, scopes);
      }
    }
  }

  // ----- what is kept of a base state -----

  /** Chunk `i` is full, and the chunks from there to the current one are empty:
      going back to it changes nothing below the current chunk, then or later. */
  ghost predicate Sealed(base: State, i: nat) {
    && i < base.current <= |base.chunks|
    && base.chunks[i].used == base.chunks[i].capacity
    && forall j :: i < j < base.current ==> base.chunks[j].used == 0
  }

  /** Going back to `cp` drops nothing that `base` has below its current chunk,
      nor a checkpoint on its stack; and leaves no room there. */
  ghost predicate Spares(base: State, cp: Checkpoint) {
    && (forall k :: 0 <= k < |base.checkpoints| ==> base.checkpoints[k].id < cp.id)
    && (base.current <= cp.chunkIndex
        || (Sealed(base, cp.chunkIndex) && cp.chunkOffset == base.chunks[cp.chunkIndex].used))
  }

  /** The chunks of `base` are there, those below its current one are used as
      they were, and `st` is not going to use them. */
  ghost predicate ChunksAnchored(base: State, st: State) {
    && base.current < |base.chunks| <= |st.chunks|
    && (forall i :: 0 <= i < |base.chunks| ==> st.chunks[i].capacity == base.chunks[i].capacity)
    && (forall i :: 0 <= i < base.current ==> st.chunks[i].used == base.chunks[i].used)
    && (base.current <= st.current || Sealed(base, st.current))
  }

  /** The stack of `base` is there, with newer checkpoints on top. */
  ghost predicate StackAnchored(base: State, st: State) {
    && base.nextId <= st.nextId
    && base.checkpoints <= st.checkpoints
    && (forall k :: |base.checkpoints| <= k < |st.checkpoints| ==>
          base.nextId <= st.checkpoints[k].id && Spares(base, st.checkpoints[k]))
  }

  /** `st` was reached from `base` and still has what lies below the current
      chunk of `base`, and its stack. */
  ghost predicate Anchored(base: State, st: State) {
    ChunksAnchored(base, st) && StackAnchored(base, st)
  }

  /** `st` is `base` again: the same bump position, the same usage of every
      chunk, the same stack and count.  Chunks added since are empty. */
  ghost predicate Restored(base: State, st: State) {
    && |base.chunks| <= |st.chunks|
    && (forall i :: 0 <= i < |base.chunks| ==> st.chunks[i] == base.chunks[i])
    && (forall i :: |base.chunks| <= i < |st.chunks| ==> st.chunks[i].used == 0)
    && st.current == base.current
    && st.checkpoints == base.checkpoints
    && st.allocationCount == base.allocationCount
  }

  /** A checkpoint taken now spares the base. */
  lemma HereSpares(base: State, st: State)
    requires Good(base) && Good(st) && Anchored(base, st)
    ensures Spares(base, CheckpointOf(st)) && CheckpointOf(st).id >= base.nextId
  {
  }

  lemma RewindAnchored(base: State, st: State, cp: Checkpoint)
    requires Good(base) && Good(st) && Anchored(base, st) && Spares(base, cp) && Rewindable(st, cp)
    ensures Anchored(base, RewindTo(st, cp))
  {
    RewindKeepsStack(base, st, cp);
  }

  lemma RewindKeepsStack(base: State, st: State, cp: Checkpoint)
    requires StackAnchored(base, st) && Spares(base, cp) && Rewindable(st, cp)
    ensures StackAnchored(base, RewindTo(st, cp))
  {
    var n := |base.checkpoints|;
    var newer := st.checkpoints[n..];
    assert st.checkpoints == base.checkpoints + newer;
    RetainAfter(base.checkpoints, newer, cp.id);
    var st' := RewindTo(st, cp);
    forall k | n <= k < |st'.checkpoints|
      ensures base.nextId <= st'.checkpoints[k].id && Spares(base, st'.checkpoints[k])
    {
      RetainMembers(newer, cp.id, st'.checkpoints[k]);
      var m :| 0 <= m < |newer| && newer[m] == st'.checkpoints[k];
      assert st.checkpoints[n + m] == st'.checkpoints[k];
    }
  }

  lemma PushedAnchored(base: State, st: State)
    requires Good(base) && Good(st) && Anchored(base, st)
    ensures Anchored(base, Pushed(st))
  {
    HereSpares(base, st);
  }

  /** The state between taking a checkpoint off the stack and rewinding to it. */
  lemma OffAnchored(base: State, st: State)
    requires Good(base) && Good(st) && Anchored(base, st) && |st.checkpoints| > |base.checkpoints|
    ensures var popped := st.(checkpoints := st.checkpoints[..|st.checkpoints| - 1]);
            Good(popped) && Anchored(base, popped)
  {
  }

  /** Popping a checkpoint that was pushed since. */
  lemma PopAnchored(base: State, st: State)
    requires Good(base) && Good(st) && Anchored(base, st) && |st.checkpoints| > |base.checkpoints|
    ensures PopAndRewind(st).Some? && Anchored(base, PopAndRewind(st).value)
    ensures |PopAndRewind(st).value.checkpoints| < |st.checkpoints|
  {
    var n := |st.checkpoints| - 1;
    var popped := st.(checkpoints := st.checkpoints[..n]);
    OffAnchored(base, st);
    assert Rewindable(st, st.checkpoints[n]) && Spares(base, st.checkpoints[n]);
    RewindAnchored(base, popped, st.checkpoints[n]);
    RetainShortens(popped.checkpoints, st.checkpoints[n].id);
  }

  lemma AllocAnchored(base: State, st: State, layout: Layout, memory: bool)
    requires Good(base) && Good(st) && Anchored(base, st) && layout.align > 0
    ensures var (st', out) := AllocateRaw(st, layout, memory); !out.Aborted? ==> Anchored(base, st')
  {
    AllocBumps(st, layout, memory);
  }

  /** Going back to the checkpoint of a base state restores the base state. */
  lemma RewindRestores(base: State, st: State)
    requires Good(base) && Good(st) && Anchored(base, st)
    ensures Rewindable(st, CheckpointOf(base))
    ensures var st' := RewindTo(st, CheckpointOf(base));
            Restored(base, st') && Anchored(base, st')
  {
    assert ChunkOk(base.chunks[base.current]);
    HereSpares(base, base);
    RewindAnchored(base, st, CheckpointOf(base));
    RewindRestoresStack(base, st);
  }

  lemma RewindRestoresStack(base: State, st: State)
    requires Good(base) && StackAnchored(base, st)
    ensures Retain(st.checkpoints, base.nextId) == base.checkpoints
  {
    var newer := st.checkpoints[|base.checkpoints|..];
    assert st.checkpoints == base.checkpoints + newer;
    RetainAfter(base.checkpoints, newer, base.nextId);
    RetainByIds(newer, base.nextId, 0);
  }

  // ----- every structured program -----

  /** A program that resets only scopes that spare the base, and that does not
      clear the stack, cross a push/pop block or shrink unless the base has
      nothing to lose by it. */
  ghost predicate Careful(p: Prog, base: State, scopes: seq<Checkpoint>) {
    && (forall k :: k in Resets(p) && k < |scopes| ==> Spares(base, scopes[k]))
    && (base.checkpoints == [] || (Tidy(p, |scopes|) && ShrinkFree(p)))
    && (|base.chunks| == 1 || ShrinkFree(p))
  }

  ghost predicate AllCareful(ps: seq<Prog>, base: State, scopes: seq<Checkpoint>) {
    && (forall k :: k in AllResets(ps) && k < |scopes| ==> Spares(base, scopes[k]))
    && (base.checkpoints == [] || (AllTidy(ps, |scopes|) && AllShrinkFree(ps)))
    && (|base.chunks| == 1 || AllShrinkFree(ps))
  }

  /** It keeps what the base has. */
  lemma {:induction false} ExecAnchored(p: Prog, st: State, scopes: seq<Checkpoint>, base: State)
    requires WellNested(p, |scopes|) && Good(base) && Good(st) && Anchored(base, st) && Careful(p, base, scopes)
    ensures var (st', mode) := Exec(p, st, scopes); !mode.Dead? ==> Anchored(base, st')
    decreases p, 1
  {
    match p
    case Alloc(layout, memory) => AllocAnchored(base, st, layout, memory);
    case Mark =>
    case Scoped(body) => ScopeAnchored(body, st, scopes, base);
    case ResetScope(k) =>
      if Rewindable(st, scopes[k]) {
        RewindAnchored(base, st, scopes[k]);
      }
    case PushOnly => PushedAnchored(base, st);
    case PushPop(body) => BlockAnchored(body, st, scopes, base);
    case ClearStack =>
    case ShrinkToFit =>
    case Panic =>
  }

  lemma {:induction false} ExecAllAnchored(ps: seq<Prog>, st: State, scopes: seq<Checkpoint>, base: State)
    requires AllWellNested(ps, |scopes|) && Good(base) && Good(st) && Anchored(base, st) && AllCareful(ps, base, scopes)
    ensures var (st', mode) := ExecAll(ps, st, scopes); !mode.Dead? ==> Anchored(base, st')
    decreases ps, 0
  {
    if ps != [] {
      ExecAnchored(ps[0], st, scopes, base);
      ExecOnward(ps[0], st, scopes);
      var (st1, mode) := Exec(ps[0], st, scopes);
      if mode.Normal? {
        ExecAllAnchored(ps[1..], st1, scopes, base);
      }
    }
  }

  lemma {:induction false} ScopeAnchored(body: seq<Prog>, st: State, scopes: seq<Checkpoint>, base: State)
    requires AllWellNested(body, |scopes| + 1) && Good(base) && Good(st) && Anchored(base, st)
    requires Careful(Scoped(body), base, scopes)
    ensures var (st', mode) := Exec(Scoped(body), st, scopes); !mode.Dead? ==> Anchored(base, st')
    decreases body, 2
  {
    var cp := CheckpointOf(st);
    HereSpares(base, st);
    ExecAllAnchored(body, Taken(st), scopes + [cp], base);
    ExecAllOnward(body, Taken(st), scopes + [cp]);
    var (st1, mode) := ExecAll(body, Taken(st), scopes + [cp]);
    if !mode.Dead? && Rewindable(st1, cp) {
      RewindAnchored(base, st1, cp);
    }
  }

  lemma {:induction false} BlockAnchored(body: seq<Prog>, st: State, scopes: seq<Checkpoint>, base: State)
    requires AllWellNested(body, |scopes|) && Good(base) && Good(st) && Anchored(base, st)
    requires Careful(PushPop(body), base, scopes)
    ensures var (st', mode) := Exec(PushPop(body), st, scopes); !mode.Dead? ==> Anchored(base, st')
    decreases body, 2
  {
    PushedAnchored(base, st);
    PushedOnward(st);
    ExecAllAnchored(body, Pushed(st), scopes, base);
    ExecAllOnward(body, Pushed(st), scopes);
    var (st1, mode) := ExecAll(body, Pushed(st), scopes);
    if mode.Normal? {
      PopOnward(st1);
      if base.checkpoints != [] {
        AllStackKept(body, Pushed(st), scopes);
      }
      if st1.checkpoints != [] {
        PopAnchored(base, st1);
      }
    }
  }

  /** A program that neither clears, shrinks nor resets an enclosing scope leaves
      the stack it found, and nothing on top of it if every push has its pop. */
  lemma {:induction false} StackKept(p: Prog, st: State, scopes: seq<Checkpoint>)
    requires WellNested(p, |scopes|) && Good(st) && Tidy(p, |scopes|) && ShrinkFree(p)
    requires forall k :: k in Resets(p) ==> |scopes| <= k
    ensures var (st', mode) := Exec(p, st, scopes);
            mode.Normal? ==>
              st.checkpoints <= st'.checkpoints && (Matched(p) ==> st'.checkpoints == st.checkpoints)
    decreases p, 1
  {
    assert p.ResetScope? ==> p.k in Resets(p);
    match p
    case Alloc(layout, memory) => AllocBumps(st, layout, memory);
    case Mark =>
    case Scoped(body) => ScopeRestores(body, st, scopes);
    case PushOnly =>
    case PushPop(body) => BlockKeepsStack(body, st, scopes);
    case Panic =>
  }

  lemma {:induction false} AllStackKept(ps: seq<Prog>, st: State, scopes: seq<Checkpoint>)
    requires AllWellNested(ps, |scopes|) && Good(st) && AllTidy(ps, |scopes|) && AllShrinkFree(ps)
    requires forall k :: k in AllResets(ps) ==> |scopes| <= k
    ensures var (st', mode) := ExecAll(ps, st, scopes);
            mode.Normal? ==>
              st.checkpoints <= st'.checkpoints && (AllMatched(ps) ==> st'.checkpoints == st.checkpoints)
    decreases ps, 0
  {
    if ps != [] {
      assert AllResets(ps) == Resets(ps[0]) + AllResets(ps[1..]);
      StackKept(ps[0], st, scopes);
      ExecOnward(ps[0], st, scopes);
      var (st1, mode) := Exec(ps[0], st, scopes);
      if mode.Normal? {
        AllStackKept(ps[1..], st1, scopes);
      }
    }
  }

  lemma {:induction false} BlockKeepsStack(body: seq<Prog>, st: State, scopes: seq<Checkpoint>)
    requires AllWellNested(body, |scopes|) && Good(st) && Tidy(PushPop(body), |scopes|) && AllShrinkFree(body)
    ensures var (st', mode) := Exec(PushPop(body), st, scopes);
            mode.Normal? ==>
              && Anchored(st, st')
              && (AllMatched(body) ==> st'.checkpoints == st.checkpoints)
    decreases body, 2
  {
    PushedAnchored(st, st);
    PushedOnward(st);
    ExecAllAnchored(body, Pushed(st), scopes, st);
    ExecAllOnward(body, Pushed(st), scopes);
    AllStackKept(body, Pushed(st), scopes);
    var (st1, mode) := ExecAll(body, Pushed(st), scopes);
    if mode.Normal? {
      PopAnchored(st, st1);
    }
  }

  // ----- scopes and blocks -----

  /** Leaving a scope, normally or by unwinding, restores the entry state if the
      body is careful of it.  The body's own scope and those inside it may be
      reset in any case. */
  lemma {:induction false} ScopeRestores(body: seq<Prog>, st: State, scopes: seq<Checkpoint>)
    requires AllWellNested(body, |scopes| + 1) && Good(st) && Careful(Scoped(body), st, scopes)
    ensures var (st1, mode) := ExecAll(body, Taken(st), scopes + [CheckpointOf(st)]);
            var (st', mode') := Exec(Scoped(body), st, scopes);
            mode' == mode && (!mode.Dead? ==> Restored(st, st'))
    decreases body, 2
  {
    var cp := CheckpointOf(st);
    HereSpares(st, st);
    ExecAllAnchored(body, Taken(st), scopes + [cp], st);
    ExecAllOnward(body, Taken(st), scopes + [cp]);
    var (st1, mode) := ExecAll(body, Taken(st), scopes + [cp]);
    if !mode.Dead? {
      RewindRestores(st, st1);
    }
  }

  /** A push/pop block in which every push has its pop, and which neither
      clears, shrinks nor resets a scope around it, ends in its entry state if
      its body ends normally. */
  lemma {:induction false} PushPopRestores(body: seq<Prog>, st: State, scopes: seq<Checkpoint>)
    requires AllWellNested(body, |scopes|) && Good(st)
    requires Tidy(PushPop(body), |scopes|) && AllShrinkFree(body) && AllMatched(body)
    ensures ExecAll(body, Pushed(st), scopes).1.Normal? ==>
              var (st', mode) := Exec(PushPop(body), st, scopes);
              mode.Normal? && Restored(st, st')
  {
    PushedAnchored(st, st);
    PushedOnward(st);
    ExecAllAnchored(body, Pushed(st), scopes, st);
    ExecAllOnward(body, Pushed(st), scopes);
    AllStackKept(body, Pushed(st), scopes);
    var (st1, mode) := ExecAll(body, Pushed(st), scopes);
    if mode.Normal? {
      PopRestores(st, st1);
    }
  }

  lemma PopRestores(base: State, st: State)
    requires Good(base) && Good(st) && Anchored(base, st) && st.checkpoints == base.checkpoints + [CheckpointOf(base)]
    ensures PopAndRewind(st).Some? && Restored(base, PopAndRewind(st).value)
  {
    var popped := st.(checkpoints := base.checkpoints);
    assert st.checkpoints[..|base.checkpoints|] == base.checkpoints;
    assert Good(popped) && Anchored(base, popped);
    RewindRestores(base, popped);
  }
}
