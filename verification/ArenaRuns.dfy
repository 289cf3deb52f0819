/** Runs of the arena: any sequence of allocations, checkpoints, rewinds to
    live checkpoints, pushes, pops, clears and resets. */
module ArenaRuns {
  import opened Alignment
  import opened ArenaState
  import opened Options

  /** A live allocation; zero-sized ones take no bytes. */
  datatype Block = Block(chunk: nat, start: nat, layout: Layout) | Nothing

  /** The arena, its live allocations in order, its live checkpoints in order,
      how many allocations were live when each was taken, and the chunks that
      were current on the way to the present one. */
  datatype Run = Run(st: State, live: seq<Block>, marks: seq<Checkpoint>, counts: seq<nat>, path: seq<nat>)

  datatype Op =
    | Allocate(layout: Layout, memory: bool)
    | TakeCheckpoint
    | Push
    | Pop
    | Rewind(k: nat)
    | Clear
    | Reset
    | Shrink

  datatype Answer = Allocated(outcome: Outcome) | Done | Panicked

  /** Rewinding needs a live checkpoint, named by its position among them. */
  predicate Allowed(r: Run, op: Op) {
    && r.st.chunks != []
    && match op
       case Allocate(layout, _) => layout.align > 0
       case Rewind(k) => k < |r.marks| && Rewindable(r.st, r.marks[k])
       case _ => true
  }

  function BlockOf(layout: Layout, out: Outcome): seq<Block> {
    match out
    case ZeroSized => [Nothing]
    case Granted(place, _) => [Block(place.chunk, place.start, layout)]
    case Aborted => []
  }

  /** The chunks of a path up to a given one. */
  function CutPath(path: seq<nat>, chunk: nat): seq<nat> {
    if path == [] || path[|path| - 1] <= chunk then path else CutPath(path[..|path| - 1], chunk)
  }

  /** The history after rewinding `st` to `cp`. */
  function Rewound(r: Run, st: State, cp: Checkpoint): Run {
    var marks := Retain(r.marks, cp.id + 1);
    var counts := Take(r.counts, |marks|);
    Run(st,
        Take(r.live, if counts == [] then 0 else counts[|counts| - 1]),
        marks,
        counts,
        CutPath(r.path, cp.chunkIndex))
  }

  /** At most the first `n` elements. */
  function Take<T>(s: seq<T>, n: nat): seq<T> {
    if n <= |s| then s[..n] else s
  }

  /** The history after taking a checkpoint. */
  function Marked(r: Run, st: State): Run
    requires r.st.chunks != []
  {
    r.(st := st, marks := r.marks + [CheckpointOf(r.st)], counts := r.counts + [|r.live|])
  }

  function Step(r: Run, op: Op): (Run, Answer)
    requires Allowed(r, op)
  {
    match op
    case Allocate(layout, memory) =>
      var (st, out) := AllocateRaw(r.st, layout, memory);
      (Run(st, r.live + BlockOf(layout, out), r.marks, r.counts,
           if st.current != r.st.current then r.path + [st.current] else r.path), Allocated(out))
    case TakeCheckpoint => (Marked(r, Taken(r.st)), Done)
    case Push => (Marked(r, Pushed(r.st)), Done)
    case Pop =>
      (match PopAndRewind(r.st)
       case None => (r, Panicked)
       case Some(st) => (Rewound(r, st, r.st.checkpoints[|r.st.checkpoints| - 1]), Done))
    case Rewind(k) => (Rewound(r, RewindTo(r.st, r.marks[k]), r.marks[k]), Done)
    case Clear => (r.(st := Cleared(r.st)), Done)
    case Reset => (Run(ResetState(r.st), [], [], [], [0]), Done)
    case Shrink => (Run(ShrunkState(r.st), [], [], [], [0]), Done)
  }

  // ----- what every run keeps -----

  ghost predicate InChunk(st: State, b: Block) {
    b.Block? ==>
      && b.chunk <= st.current < |st.chunks|
      && b.layout.size > 0
      && b.layout.align > 0 && b.start % b.layout.align == 0
      && b.start + b.layout.size <= st.chunks[b.chunk].used
  }

  /** `a` ends at or before the start of `b`, or in an earlier chunk. */
  predicate Before(a: Block, b: Block) {
    a.Block? && b.Block? ==> a.chunk < b.chunk || (a.chunk == b.chunk && a.start + a.layout.size <= b.start)
  }

  predicate Under(b: Block, cp: Checkpoint) {
    b.Block? ==> b.chunk < cp.chunkIndex || (b.chunk == cp.chunkIndex && b.start + b.layout.size <= cp.chunkOffset)
  }

  /** Checkpoints in the order they were taken: ids grow, positions do not go down. */
  predicate Older(a: Checkpoint, b: Checkpoint) {
    && a.id < b.id
    && a.allocationCount <= b.allocationCount
    && (a.chunkIndex < b.chunkIndex || (a.chunkIndex == b.chunkIndex && a.chunkOffset <= b.chunkOffset))
  }

  ghost predicate Sorted(cps: seq<Checkpoint>) {
    forall j, k :: 0 <= j < k < |cps| ==> Older(cps[j], cps[k])
  }

  /** A live checkpoint is at or below the bump position, and the allocations
      it counted are at or below its own. */
  ghost predicate MarkOk(r: Run, cp: Checkpoint) {
    && cp.id < r.st.nextId
    && cp.chunkIndex <= r.st.current < |r.st.chunks|
    && cp.chunkOffset <= r.st.chunks[cp.chunkIndex].used
    && cp.allocationCount <= |r.live|
    && forall i :: 0 <= i < cp.allocationCount ==> Under(r.live[i], cp)
  }

  ghost predicate LiveOk(r: Run) {
    && (forall i :: 0 <= i < |r.live| ==> InChunk(r.st, r.live[i]))
    && (forall i, j :: 0 <= i < j < |r.live| ==> Before(r.live[i], r.live[j]))
  }

  ghost predicate MarksOk(r: Run) {
    && Sorted(r.marks)
    && |r.counts| == |r.marks|
    && (forall k :: 0 <= k < |r.marks| ==> r.marks[k].allocationCount == r.counts[k])
    && (forall k :: 0 <= k < |r.marks| ==> MarkOk(r, r.marks[k]))
    && Sorted(r.st.checkpoints)
    && (forall k :: 0 <= k < |r.st.checkpoints| ==> r.st.checkpoints[k] in r.marks)
  }

  ghost predicate Inv(r: Run) {
    && Shaped(r.st)
    && LiveOk(r)
    && MarksOk(r)
    && r.st.allocationCount == |r.live|
    && r.st.bytesUsed <= SumUsed(r.st.chunks)
  }

  // ----- sums -----

  lemma {:induction false} SumUsedUpdate(chunks: seq<ChunkState>, i: nat, c: ChunkState)
    requires i < |chunks|
    ensures SumUsed(chunks[i := c]) == SumUsed(chunks) - chunks[i].used + c.used
  {
    var n := |chunks| - 1;
    if i < n {
      SumUsedUpdate(chunks[..n], i, c);
      assert chunks[i := c][..n] == chunks[..n][i := c];
    } else {
      assert chunks[i := c][..n] == chunks[..n];
    }
  }

  lemma SumUsedAppend(chunks: seq<ChunkState>, c: ChunkState)
    ensures SumUsed(chunks + [c]) == SumUsed(chunks) + c.used
  {
    assert (chunks + [c])[..|chunks|] == chunks;
  }

  lemma {:induction false} SumUsedPrefix(chunks: seq<ChunkState>, k: nat)
    requires k <= |chunks| && forall i :: k <= i < |chunks| ==> chunks[i].used == 0
    ensures SumUsed(chunks[..k]) == SumUsed(chunks)
  {
    if k < |chunks| {
      var n := |chunks| - 1;
      SumUsedPrefix(chunks[..n], k);
      assert chunks[..n][..k] == chunks[..k];
    } else {
      assert chunks[..k] == chunks;
    }
  }

  // ----- retaining -----

  lemma {:induction false} RetainByIds(stack: seq<Checkpoint>, id: nat, n: nat)
    requires n <= |stack| && (forall j :: 0 <= j < n ==> stack[j].id < id)
    requires forall j :: n <= j < |stack| ==> id <= stack[j].id
    ensures Retain(stack, id) == stack[..n]
  {
    if stack != [] {
      var m := |stack| - 1;
      if n == |stack| {
        RetainByIds(stack[..m], id, m);
        assert stack[..m] + [stack[m]] == stack[..n];
      } else {
        RetainByIds(stack[..m], id, n);
        assert stack[..m][..n] == stack[..n];
      }
    }
  }

  /** On a stack in order, `retain` keeps exactly the prefix older than the target. */
  lemma RetainIsPrefix(stack: seq<Checkpoint>, id: nat) returns (n: nat)
    requires Sorted(stack)
    ensures n <= |stack| && Retain(stack, id) == stack[..n]
    ensures forall j :: 0 <= j < n ==> stack[j].id < id
    ensures forall j :: n <= j < |stack| ==> id <= stack[j].id
  {
    n := 0;
    while n < |stack| && stack[n].id < id
      invariant n <= |stack| && forall j :: 0 <= j < n ==> stack[j].id < id
    {
      n := n + 1;
    }
    forall j | n < j < |stack| ensures id <= stack[j].id {
      assert Older(stack[n], stack[j]);
    }
    RetainByIds(stack, id, n);
  }

  lemma RetainUpTo(marks: seq<Checkpoint>, k: nat)
    requires Sorted(marks) && k < |marks|
    ensures Retain(marks, marks[k].id + 1) == marks[..k + 1]
  {
    var n := RetainIsPrefix(marks, marks[k].id + 1);
    assert n > k;
    assert n == k + 1;
  }

  // ----- each operation keeps the invariant -----

  /** An allocation at the bump position: everything live stays below it. */
  lemma AppendBlock(r: Run, r': Run, b: Block)
    requires Inv(r) && Shaped(r'.st) && r'.live == r.live + [b] && r'.marks == r.marks && r'.counts == r.counts
    requires r'.st.checkpoints == r.st.checkpoints && r'.st.nextId == r.st.nextId
    requires r.st.current <= r'.st.current && |r.st.chunks| <= |r'.st.chunks|
    requires forall i :: 0 <= i < |r.st.chunks| ==> r.st.chunks[i].used <= r'.st.chunks[i].used
    requires InChunk(r'.st, b)
    requires b.Block? ==> b.chunk > r.st.current || (b.chunk == r.st.current && r.st.chunks[b.chunk].used <= b.start)
    ensures LiveOk(r') && MarksOk(r')
  {
    forall i | 0 <= i < |r.live| ensures InChunk(r'.st, r'.live[i]) && Before(r'.live[i], b) {
      assert InChunk(r.st, r.live[i]);
    }
    forall k | 0 <= k < |r'.marks| ensures MarkOk(r', r'.marks[k]) {
      assert MarkOk(r, r.marks[k]);
    }
  }

  lemma AllocateKeepsInv(r: Run, layout: Layout, memory: bool)
    requires Inv(r) && layout.align > 0
    ensures Inv(Step(r, Allocate(layout, memory)).0)
  {
    var (st, out) := AllocateRaw(r.st, layout, memory);
    var r' := Step(r, Allocate(layout, memory)).0;
    var c := r.st.chunks[r.st.current];
    if layout.size == 0 {
      AppendBlock(r, r', Nothing);
    } else if c.Fit(layout).Some? {
      FittingKeepsInv(r, layout, memory);
    } else if memory {
      GrownKeepsInv(r, layout);
    }
  }

  lemma FittingKeepsInv(r: Run, layout: Layout, memory: bool)
    requires Inv(r) && layout.align > 0 && layout.size > 0
    requires r.st.chunks[r.st.current].Fit(layout).Some?
    ensures Inv(Step(r, Allocate(layout, memory)).0)
  {
    var c := r.st.chunks[r.st.current];
    var start := c.Fit(layout).value;
    SumUsedUpdate(r.st.chunks, r.st.current, c.(used := start + layout.size));
    AppendBlock(r, Step(r, Allocate(layout, memory)).0, Block(r.st.current, start, layout));
  }

  lemma GrownKeepsInv(r: Run, layout: Layout)
    requires Inv(r) && layout.align > 0 && layout.size > 0
    requires r.st.chunks[r.st.current].Fit(layout).None?
    ensures Inv(Step(r, Allocate(layout, true)).0)
  {
    var c := Growth(layout.size);
    if layout.size <= MAX_CHUNK_SIZE {
      GrownAllocation(r.st, layout);
      SumUsedAppend(r.st.chunks, ChunkState(c, layout.size));
      AlignUpOfMultiple(0, layout.align);
      AppendBlock(r, Step(r, Allocate(layout, true)).0, Block(|r.st.chunks|, 0, layout));
    } else {
      OversizeAborts(r.st, layout);
      SpareChunkKeepsInv(r, ChunkState(c, 0), Step(r, Allocate(layout, true)).0);
    }
  }

  lemma SpareChunkKeepsInv(r: Run, c: ChunkState, r': Run)
    requires Inv(r) && ChunkOk(c) && c.used == 0
    requires r'.st == AddChunk(r.st, c) && r'.live == r.live && r'.marks == r.marks && r'.counts == r.counts
    ensures Inv(r')
  {
    SumUsedAppend(r.st.chunks, c);
    forall i | 0 <= i < |r'.live| ensures InChunk(r'.st, r'.live[i]) {
      assert InChunk(r.st, r.live[i]);
    }
    forall k | 0 <= k < |r'.marks| ensures MarkOk(r', r'.marks[k]) {
      assert MarkOk(r, r.marks[k]);
    }
  }

  /** A request over 16 MiB that does not fit adds a chunk and then aborts. */
  lemma OversizeAborts(st: State, layout: Layout)
    requires Shaped(st) && layout.align > 0 && layout.size > MAX_CHUNK_SIZE && st.chunks[st.current].Fit(layout).None?
    ensures AllocateRaw(st, layout, true) == (AddChunk(st, ChunkState(Growth(layout.size), 0)), Aborted)
    ensures ChunkOk(ChunkState(Growth(layout.size), 0))
  {
    GrowthIsTight(layout.size);
    AlignUpOfMultiple(Growth(layout.size), CHUNK_ALIGN);
  }

  lemma MarkingKeepsInv(r: Run, op: Op)
    requires Inv(r) && (op.TakeCheckpoint? || op.Push?)
    ensures Inv(Step(r, op).0)
  {
    var r' := Step(r, op).0;
    var cp := CheckpointOf(r.st);
    forall i | 0 <= i < |r.live| ensures Under(r.live[i], cp) && InChunk(r'.st, r'.live[i]) {
      assert InChunk(r.st, r.live[i]);
    }
    forall k | 0 <= k < |r.marks| ensures Older(r.marks[k], cp) && MarkOk(r', r.marks[k]) {
      assert MarkOk(r, r.marks[k]);
    }
    forall k | 0 <= k < |r.st.checkpoints| ensures r.st.checkpoints[k] in r'.marks && Older(r.st.checkpoints[k], cp) {
      assert r.st.checkpoints[k] in r.marks;
    }
    assert r'.marks[|r.marks|] == cp;
  }

  /** Rewinding to a live checkpoint, with any part of the stack already popped. */
  lemma RewindKeepsInv(r: Run, k: nat, stack: seq<Checkpoint>)
    requires Inv(r) && k < |r.marks| && stack <= r.st.checkpoints
    ensures var popped := r.st.(checkpoints := stack);
            && Rewindable(popped, r.marks[k])
            && Inv(Rewound(r, RewindTo(popped, r.marks[k]), r.marks[k]))
            && RewindTo(popped, r.marks[k]).bytesUsed == SumUsed(RewindTo(popped, r.marks[k]).chunks)
  {
    var cp := r.marks[k];
    assert MarkOk(r, cp) && ChunkOk(r.st.chunks[cp.chunkIndex]);
    var popped := r.st.(checkpoints := stack);
    var st := RewindTo(popped, cp);
    RewoundHistory(r, k, st);
    RewoundState(popped, cp);
    SumUsedPrefix(st.chunks, cp.chunkIndex + 1);
    RewoundLive(r, k, st);
    RewoundMarks(r, k, stack);
  }

  /** A rewind leaves exactly the allocations that were live at the checkpoint,
      and their number is the one the checkpoint recorded. */
  lemma RewoundHistory(r: Run, k: nat, st: State)
    requires Sorted(r.marks) && k < |r.marks| == |r.counts| && r.counts[k] == r.marks[k].allocationCount <= |r.live|
    ensures var r' := Rewound(r, st, r.marks[k]);
            && r'.marks == r.marks[..k + 1] && r'.counts == r.counts[..k + 1]
            && r'.live == r.live[..r.counts[k]] && |r'.live| == r.marks[k].allocationCount
  {
    RetainUpTo(r.marks, k);
  }

  lemma RewoundState(st: State, cp: Checkpoint)
    requires Shaped(st) && Rewindable(st, cp) && cp.chunkIndex <= st.current
    ensures Shaped(RewindTo(st, cp))
  {
    var st' := RewindTo(st, cp);
    forall i | 0 <= i < |st'.chunks| ensures ChunkOk(st'.chunks[i]) {
      assert ChunkOk(st.chunks[i]);
    }
  }

  lemma RewoundLive(r: Run, k: nat, st: State)
    requires Inv(r) && k < |r.marks| && st.current == r.marks[k].chunkIndex && |st.chunks| == |r.st.chunks|
    requires st.current < |st.chunks| && st.chunks[st.current].used == r.marks[k].chunkOffset
    requires forall i :: 0 <= i < st.current ==> st.chunks[i] == r.st.chunks[i]
    ensures LiveOk(Rewound(r, st, r.marks[k]))
  {
    var cp, r' := r.marks[k], Rewound(r, st, r.marks[k]);
    assert MarkOk(r, cp);
    RewoundHistory(r, k, st);
    forall i | 0 <= i < |r'.live| ensures InChunk(st, r'.live[i]) {
      assert InChunk(r.st, r.live[i]) && Under(r.live[i], cp);
    }
  }

  lemma RewoundMarks(r: Run, k: nat, stack: seq<Checkpoint>)
    requires Inv(r) && k < |r.marks| && stack <= r.st.checkpoints && Rewindable(r.st, r.marks[k])
    ensures MarksOk(Rewound(r, RewindTo(r.st.(checkpoints := stack), r.marks[k]), r.marks[k]))
  {
    var cp := r.marks[k];
    var st := RewindTo(r.st.(checkpoints := stack), cp);
    var r' := Rewound(r, st, cp);
    assert MarkOk(r, cp);
    RewoundHistory(r, k, st);
    forall j | 0 <= j < |r'.marks| ensures MarkOk(r', r'.marks[j]) {
      assert MarkOk(r, r.marks[j]);
      if j < k {
        assert Older(r.marks[j], cp);
      }
    }
    var n := RetainIsPrefix(stack, cp.id);
    forall j | 0 <= j < n ensures stack[j] in r'.marks {
      assert r.st.checkpoints[j] in r.marks;
      OlderMarkKept(r.marks, k, stack[j]);
    }
  }

  lemma OlderMarkKept(marks: seq<Checkpoint>, k: nat, cp: Checkpoint)
    requires Sorted(marks) && k < |marks| && cp in marks && cp.id < marks[k].id
    ensures cp in marks[..k + 1]
  {
    var m :| 0 <= m < |marks| && marks[m] == cp;
    assert m <= k;
    assert marks[..k + 1][m] == cp;
  }

  /** Every checkpoint on the stack is live, so `pop_and_rewind` can only fail
      on an empty stack. */
  lemma PopIsARewind(r: Run)
    requires Inv(r) && r.st.checkpoints != []
    ensures var n := |r.st.checkpoints| - 1;
            var popped := r.st.(checkpoints := r.st.checkpoints[..n]);
            exists k :: 0 <= k < |r.marks| && r.marks[k] == r.st.checkpoints[n]
                        && Rewindable(popped, r.marks[k]) && PopAndRewind(r.st) == Some(RewindTo(popped, r.marks[k]))
  {
    var n := |r.st.checkpoints| - 1;
    assert r.st.checkpoints[n] in r.marks;
    var k :| 0 <= k < |r.marks| && r.marks[k] == r.st.checkpoints[n];
    RewindKeepsInv(r, k, r.st.checkpoints[..n]);
  }

  lemma PopKeepsInv(r: Run)
    requires Inv(r)
    ensures Inv(Step(r, Pop).0)
    ensures Step(r, Pop).1.Done? ==> Step(r, Pop).0.st.bytesUsed == SumUsed(Step(r, Pop).0.st.chunks)
  {
    if r.st.checkpoints != [] {
      var n := |r.st.checkpoints| - 1;
      PopIsARewind(r);
      var k :| 0 <= k < |r.marks| && r.marks[k] == r.st.checkpoints[n];
      RewindKeepsInv(r, k, r.st.checkpoints[..n]);
    }
  }

  lemma StepKeepsInv(r: Run, op: Op)
    requires Inv(r) && Allowed(r, op)
    ensures Inv(Step(r, op).0)
    ensures op.Rewind? || (op.Pop? && Step(r, op).1.Done?) ==>
              Step(r, op).0.st.bytesUsed == SumUsed(Step(r, op).0.st.chunks)
  {
    match op
    case Allocate(layout, memory) => AllocateKeepsInv(r, layout, memory);
    case TakeCheckpoint => MarkingKeepsInv(r, op);
    case Push => MarkingKeepsInv(r, op);
    case Pop => PopKeepsInv(r);
    case Rewind(k) => RewindKeepsInv(r, k, r.st.checkpoints);
    case Clear => ClearKeepsInv(r);
    case Reset => ResetsKeepInv(r);
    case Shrink => ResetsKeepInv(r);
  }

  lemma ClearKeepsInv(r: Run)
    requires Inv(r)
    ensures Inv(r.(st := Cleared(r.st)))
  {
    var r' := r.(st := Cleared(r.st));
    forall k | 0 <= k < |r'.marks| ensures MarkOk(r', r'.marks[k]) {
      assert MarkOk(r, r.marks[k]);
    }
    forall i | 0 <= i < |r'.live| ensures InChunk(r'.st, r'.live[i]) {
      assert InChunk(r.st, r.live[i]);
    }
  }

  lemma ResetsKeepInv(r: Run)
    requires Inv(r)
    ensures Inv(Step(r, Reset).0) && Inv(Step(r, Shrink).0)
  {
    forall i | 0 <= i < |r.st.chunks| ensures ChunkOk(r.st.chunks[i].(used := 0)) {
      assert ChunkOk(r.st.chunks[i]);
    }
  }

  // ----- whole runs -----

  function Fresh(chunk: ChunkState): Run {
    Run(NewState(chunk), [], [], [], [0])
  }

  ghost predicate IsRun(trace: seq<Run>, ops: seq<Op>) {
    && |trace| == |ops| + 1
    && (exists capacity: nat :: NewChunk(capacity, true).Some? && trace[0] == Fresh(NewChunk(capacity, true).value))
    && forall i :: 0 <= i < |ops| ==> Allowed(trace[i], ops[i]) && trace[i + 1] == Step(trace[i], ops[i]).0
  }

  lemma {:induction false} RunKeepsInv(trace: seq<Run>, ops: seq<Op>, i: nat)
    requires IsRun(trace, ops) && i < |trace|
    ensures Inv(trace[i])
  {
    if i > 0 {
      RunKeepsInv(trace, ops, i - 1);
      StepKeepsInv(trace[i - 1], ops[i - 1]);
    }
  }

  predicate Disjoint(a: Block, b: Block) {
    a.Block? && b.Block? && a.chunk == b.chunk ==>
      a.start + a.layout.size <= b.start || b.start + b.layout.size <= a.start
  }

  /** Live memory: inside the used part of an existing chunk, aligned as
      requested, pairwise disjoint; nothing is used above the current chunk. */
  ghost predicate SafeMemory(r: Run) {
    && (forall i :: 0 <= i < |r.live| && r.live[i].Block? ==>
          var b := r.live[i];
          && b.chunk < |r.st.chunks|
          && b.start + b.layout.size <= r.st.chunks[b.chunk].used <= r.st.chunks[b.chunk].capacity
          && b.layout.align > 0 && b.start % b.layout.align == 0)
    && (forall i, j :: 0 <= i < j < |r.live| ==> Disjoint(r.live[i], r.live[j]))
    && (forall i :: r.st.current < i < |r.st.chunks| ==> r.st.chunks[i].used == 0)
  }

  /** The counters: every live allocation counted, no byte counted that is not used. */
  ghost predicate HonestStats(r: Run) {
    r.st.allocationCount == |r.live| && r.st.bytesUsed <= SumUsed(r.st.chunks) && r.st.chunkCount == |r.st.chunks|
  }

  /** The stack: ids strictly increase below the next id, positions do not go
      down and stay at or below the bump position. */
  ghost predicate OrderedStack(st: State) {
    && Sorted(st.checkpoints)
    && forall k :: 0 <= k < |st.checkpoints| ==>
         var cp := st.checkpoints[k];
         && cp.id < st.nextId
         && cp.chunkIndex <= st.current < |st.chunks|
         && (cp.chunkIndex == st.current ==> cp.chunkOffset <= st.chunks[st.current].used)
  }

  lemma EveryRunIsSafe(trace: seq<Run>, ops: seq<Op>, i: nat)
    requires IsRun(trace, ops) && i < |trace|
    ensures SafeMemory(trace[i]) && HonestStats(trace[i]) && OrderedStack(trace[i].st)
  {
    RunKeepsInv(trace, ops, i);
    InvMeaning(trace[i]);
  }

  lemma InvMeaning(r: Run)
    requires Inv(r)
    ensures SafeMemory(r) && HonestStats(r) && OrderedStack(r.st)
  {
    forall i | 0 <= i < |r.live| && r.live[i].Block?
      ensures InChunk(r.st, r.live[i]) && ChunkOk(r.st.chunks[r.live[i].chunk])
    {
    }
    forall i, j | 0 <= i < j < |r.live| ensures Disjoint(r.live[i], r.live[j]) {
      assert Before(r.live[i], r.live[j]);
    }
    forall k | 0 <= k < |r.st.checkpoints| ensures MarkOk(r, r.st.checkpoints[k]) {
      assert r.st.checkpoints[k] in r.marks;
    }
  }

  /** Pointers are aligned as requested for power-of-two alignments up to 64,
      the alignment of every chunk's base address. */
  lemma PointersAreAligned(trace: seq<Run>, ops: seq<Op>, i: nat, k: nat, base: nat)
    requires IsRun(trace, ops) && i < |trace| && k < |trace[i].live| && trace[i].live[k].Block?
    requires base % CHUNK_ALIGN == 0
    requires IsPow2(trace[i].live[k].layout.align) && trace[i].live[k].layout.align <= CHUNK_ALIGN
    ensures var b := trace[i].live[k];
            b.layout.align > 0 && (base + b.start) % b.layout.align == 0
  {
    RunKeepsInv(trace, ops, i);
    var b := trace[i].live[k];
    assert InChunk(trace[i].st, b);
    SmallPowerDivides64(base, b.layout.align);
    ModShift(base, b.start, b.layout.align);
  }

  /** In every run and for every valid layout, the rounding expression of the
      source does not wrap in any chunk: it is the least aligned offset, and the
      end of the block fits the word. */
  lemma RoundingIsExact(trace: seq<Run>, ops: seq<Op>, i: nat, j: nat, layout: Layout)
    requires IsRun(trace, ops) && i < |trace| && j < |trace[i].st.chunks| && layout.Valid()
    ensures 0 < layout.align <= Pow2(WORD_BITS)
    ensures var used := trace[i].st.chunks[j].used;
            && MaskAlign(used, layout.align, WORD_BITS) == AlignUp(used, layout.align)
            && AlignUp(used, layout.align) + layout.size < Pow2(WORD_BITS)
  {
    RunKeepsInv(trace, ops, i);
    assert ChunkOk(trace[i].st.chunks[j]);
    ValidLayoutNeverOverflows(trace[i].st.chunks[j].used, layout);
  }

  /** Right after a rewind or a pop, `bytes_used` is exactly the used bytes. */
  lemma BytesUsedExactAfterRewind(trace: seq<Run>, ops: seq<Op>, i: nat)
    requires IsRun(trace, ops) && i < |ops|
    requires ops[i].Rewind? || (ops[i].Pop? && Step(trace[i], ops[i]).1.Done?)
    ensures trace[i + 1].st.bytesUsed == SumUsed(trace[i + 1].st.chunks)
  {
    RunKeepsInv(trace, ops, i);
    StepKeepsInv(trace[i], ops[i]);
  }

  /** `pop_and_rewind` panics exactly on an empty stack. */
  lemma PopPanicsIffEmpty(trace: seq<Run>, ops: seq<Op>, i: nat)
    requires IsRun(trace, ops) && i < |trace|
    ensures Allowed(trace[i], Pop)
    ensures Step(trace[i], Pop).1.Panicked? <==> trace[i].st.checkpoints == []
  {
    RunKeepsInv(trace, ops, i);
    if trace[i].st.checkpoints != [] {
      PopIsARewind(trace[i]);
    }
  }

  // ----- checkpoint ids -----

  lemma StepSpendsIds(r: Run, op: Op)
    requires Allowed(r, op)
    ensures Step(r, op).0.st.nextId == r.st.nextId + if op.TakeCheckpoint? || op.Push? then 1 else 0
  {
    if op.Allocate? {
      AllocateKeepsIds(r.st, op.layout, op.memory);
    }
  }

  lemma AllocateKeepsIds(st: State, layout: Layout, memory: bool)
    requires st.chunks != [] && layout.align > 0
    ensures AllocateRaw(st, layout, memory).0.nextId == st.nextId
  {
  }

  predicate IdsRise(trace: seq<Run>, j: nat)
    requires 0 < j < |trace|
  {
    trace[j - 1].st.nextId <= trace[j].st.nextId
  }

  lemma {:induction false} IdsGrow(trace: seq<Run>, i: nat, j: nat)
    requires i <= j < |trace| && forall k {:trigger IdsRise(trace, k)} :: 0 < k < |trace| ==> IdsRise(trace, k)
    ensures trace[i].st.nextId <= trace[j].st.nextId
  {
    if i < j {
      IdsGrow(trace, i, j - 1);
      assert IdsRise(trace, j);
    }
  }

  lemma IdsAt(trace: seq<Run>, ops: seq<Op>, j: nat)
    requires IsRun(trace, ops) && 0 < j < |trace|
    ensures IdsRise(trace, j)
  {
    assert trace[j - 1 + 1] == Step(trace[j - 1], ops[j - 1]).0;
    StepSpendsIds(trace[j - 1], ops[j - 1]);
  }

  /** In every run, through rewinds, clears and resets, no two checkpoints have
      the same id, and later ones have larger ids. */
  lemma IdsAreNeverReused(trace: seq<Run>, ops: seq<Op>, i: nat, j: nat)
    requires IsRun(trace, ops) && i < j < |ops|
    requires (ops[i].TakeCheckpoint? || ops[i].Push?) && (ops[j].TakeCheckpoint? || ops[j].Push?)
    ensures trace[i].st.chunks != [] && trace[j].st.chunks != []
    ensures CheckpointOf(trace[i].st).id < CheckpointOf(trace[j].st).id
  {
    StepSpendsIds(trace[i], ops[i]);
    forall k | 0 < k < |trace| ensures IdsRise(trace, k) {
      IdsAt(trace, ops, k);
    }
    IdsGrow(trace, i + 1, j);
  }
}
