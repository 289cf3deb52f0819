/** Rewinding restores a saved copy.

    `Ideal` is an arena in which a checkpoint saves a copy of the chunk list
    and a rewind puts the copy back; it has no spare chunks.  The real arena
    keeps emptied chunks and stores only an index and an offset, yet every
    operation gives the same answer in both, up to a renaming of chunks. */
module ArenaReplay {
  import opened Alignment
  import opened ArenaState
  import opened ArenaRuns
  import opened Options

  datatype Saved = Saved(chunks: seq<ChunkState>, count: nat)

  /** `stack` holds positions in `marks`. */
  datatype Ideal = Ideal(chunks: seq<ChunkState>, count: nat, marks: seq<Saved>, stack: seq<nat>)

  predicate IdealAllowed(s: Ideal, op: Op) {
    && s.chunks != []
    && match op
       case Allocate(layout, _) => layout.align > 0
       case Rewind(k) => k < |s.marks|
       case Pop => s.stack != [] ==> s.stack[|s.stack| - 1] < |s.marks|
       case _ => true
  }

  function BelowIn(stack: seq<nat>, k: nat): seq<nat> {
    if stack == [] then []
    else BelowIn(stack[..|stack| - 1], k) + if stack[|stack| - 1] < k then [stack[|stack| - 1]] else []
  }

  function IdealAllocate(s: Ideal, layout: Layout, memory: bool): (Ideal, Outcome)
    requires s.chunks != [] && layout.align > 0
  {
    var n := |s.chunks| - 1;
    if layout.size == 0 then (s.(count := s.count + 1), ZeroSized)
    else
      match s.chunks[n].Fit(layout)
      case Some(start) =>
        (s.(chunks := s.chunks[n := s.chunks[n].(used := start + layout.size)], count := s.count + 1),
         Granted(Place(n, start), None))
      case None =>
        var c := Growth(layout.size);
        if !memory then (s, Aborted)
        else if layout.size > c then (s.(chunks := s.chunks + [ChunkState(c, 0)]), Aborted)
        else (s.(chunks := s.chunks + [ChunkState(c, layout.size)], count := s.count + 1),
              Granted(Place(n + 1, 0), Some(c)))
  }

  function IdealRewind(s: Ideal, k: nat): Ideal
    requires k < |s.marks|
  {
    Ideal(s.marks[k].chunks, s.marks[k].count, s.marks[..k + 1], BelowIn(s.stack, k))
  }

  function IdealStep(s: Ideal, op: Op): (Ideal, Answer)
    requires IdealAllowed(s, op)
  {
    match op
    case Allocate(layout, memory) => var (s1, out) := IdealAllocate(s, layout, memory); (s1, Allocated(out))
    case TakeCheckpoint => (s.(marks := s.marks + [Saved(s.chunks, s.count)]), Done)
    case Push => (s.(marks := s.marks + [Saved(s.chunks, s.count)], stack := s.stack + [|s.marks|]), Done)
    case Pop =>
      if s.stack == [] then (s, Panicked)
      else (IdealRewind(s.(stack := s.stack[..|s.stack| - 1]), s.stack[|s.stack| - 1]), Done)
    case Rewind(k) => (IdealRewind(s, k), Done)
    case Clear => (s.(stack := []), Done)
    case Reset => (Ideal([s.chunks[0].(used := 0)], 0, [], []), Done)
    case Shrink => (Ideal([s.chunks[0].(used := 0)], 0, [], []), Done)
  }

  // ----- the coupling -----

  /** `path` lists the real index of every ideal chunk. */
  ghost predicate ChunksMatch(st: State, path: seq<nat>, chunks: seq<ChunkState>) {
    && |path| == |chunks| > 0
    && path[0] == 0
    && (forall p, q :: 0 <= p < q < |path| ==> path[p] < path[q])
    && path[|path| - 1] == st.current
    && (forall p :: 0 <= p < |path| ==> path[p] < |st.chunks| && st.chunks[path[p]] == chunks[p])
  }

  /** Chunks off the path are spare: empty, and never used again. */
  ghost predicate SparesEmpty(st: State, path: seq<nat>) {
    forall i :: 0 <= i < |st.chunks| && i !in path ==> st.chunks[i].used == 0
  }

  /** `saved` is an earlier stage of `chunks`: the same chunks, filled no less since. */
  predicate Earlier(saved: seq<ChunkState>, chunks: seq<ChunkState>) {
    && 0 < |saved| <= |chunks|
    && (forall p :: 0 <= p < |saved| - 1 ==> saved[p] == chunks[p])
    && saved[|saved| - 1].capacity == chunks[|saved| - 1].capacity
    && saved[|saved| - 1].used <= chunks[|saved| - 1].used
  }

  ghost predicate MarkMatches(cp: Checkpoint, path: seq<nat>, saved: Saved, chunks: seq<ChunkState>) {
    && Earlier(saved.chunks, chunks)
    && |chunks| == |path|
    && cp.chunkIndex == path[|saved.chunks| - 1]
    && cp.chunkOffset == saved.chunks[|saved.chunks| - 1].used
    && cp.allocationCount == saved.count
  }

  ghost predicate MarksMatch(marks: seq<Checkpoint>, path: seq<nat>, saved: seq<Saved>, chunks: seq<ChunkState>) {
    && |marks| == |saved|
    && (forall k :: 0 <= k < |marks| ==> MarkMatches(marks[k], path, saved[k], chunks))
    && (forall j, k :: 0 <= j < k < |saved| ==> Earlier(saved[j].chunks, saved[k].chunks))
  }

  ghost predicate StacksMatch(stack: seq<Checkpoint>, marks: seq<Checkpoint>, positions: seq<nat>) {
    && |stack| == |positions|
    && (forall j :: 0 <= j < |stack| ==> positions[j] < |marks| && stack[j] == marks[positions[j]])
    && (forall i, j :: 0 <= i < j < |positions| ==> positions[i] < positions[j])
  }

  ghost predicate Coupled(r: Run, s: Ideal) {
    Inv(r) && Matches(r, s)
  }

  ghost predicate Matches(r: Run, s: Ideal) {
    && ChunksMatch(r.st, r.path, s.chunks)
    && SparesEmpty(r.st, r.path)
    && r.st.allocationCount == s.count
    && MarksMatch(r.marks, r.path, s.marks, s.chunks)
    && StacksMatch(r.st.checkpoints, r.marks, s.stack)
  }

  /** The same answer, with chunks renamed along the path. */
  predicate SameAnswer(a: Answer, b: Answer, path: seq<nat>) {
    match (a, b)
    case (Allocated(Granted(p, g)), Allocated(Granted(q, h))) =>
      p.start == q.start && g == h && q.chunk < |path| && p.chunk == path[q.chunk]
    case _ => a == b
  }

  // ----- every operation preserves it -----

  /** Filling the last chunk further leaves earlier stages earlier. */
  lemma EarlierAfterBump(saved: seq<ChunkState>, chunks: seq<ChunkState>, used: nat)
    requires Earlier(saved, chunks) && chunks[|chunks| - 1].used <= used
    ensures Earlier(saved, chunks[|chunks| - 1 := chunks[|chunks| - 1].(used := used)])
  {
  }

  lemma AllocateFits(r: Run, s: Ideal, layout: Layout, memory: bool)
    requires Coupled(r, s) && layout.align > 0 && layout.size > 0 && r.st.chunks[r.st.current].Fit(layout).Some?
    ensures var (r', a) := Step(r, Allocate(layout, memory));
            var (s', b) := IdealStep(s, Allocate(layout, memory));
            Coupled(r', s') && SameAnswer(a, b, r'.path)
  {
    var n := |s.chunks| - 1;
    var (r', _) := Step(r, Allocate(layout, memory));
    var (s', _) := IdealStep(s, Allocate(layout, memory));
    AllocateKeepsInv(r, layout, memory);
    assert r.st.chunks[r.st.current] == s.chunks[n];
    assert r.path[n] in r.path;
    forall k | 0 <= k < |r'.marks| ensures MarkMatches(r'.marks[k], r'.path, s'.marks[k], s'.chunks) {
      assert MarkMatches(r.marks[k], r.path, s.marks[k], s.chunks);
      EarlierAfterBump(s.marks[k].chunks, s.chunks, s'.chunks[n].used);
    }
  }

  /** A chunk appended to both arenas. */
  lemma Grown(r: Run, s: Ideal, r': Run, s': Ideal, c: ChunkState)
    requires Coupled(r, s) && Inv(r')
    requires r'.st.chunks == r.st.chunks + [c] && r'.st.current == |r.st.chunks| && r'.path == r.path + [|r.st.chunks|]
    requires s' == s.(chunks := s.chunks + [c], count := s'.count)
    requires r'.st.allocationCount == s'.count && r'.marks == r.marks && r'.st.checkpoints == r.st.checkpoints
    ensures Coupled(r', s')
  {
    forall i | 0 <= i < |r.st.chunks| && i !in r'.path ensures r'.st.chunks[i].used == 0 {
      assert i !in r.path;
    }
    assert r'.path[|r.path|] in r'.path;
    forall k | 0 <= k < |r'.marks| ensures MarkMatches(r'.marks[k], r'.path, s'.marks[k], s'.chunks) {
      assert MarkMatches(r.marks[k], r.path, s.marks[k], s.chunks);
    }
  }

  lemma AllocateGrows(r: Run, s: Ideal, layout: Layout)
    requires Coupled(r, s) && layout.align > 0 && layout.size > 0 && r.st.chunks[r.st.current].Fit(layout).None?
    ensures var (r', a) := Step(r, Allocate(layout, true));
            var (s', b) := IdealStep(s, Allocate(layout, true));
            Coupled(r', s') && SameAnswer(a, b, r'.path)
  {
    if layout.size <= MAX_CHUNK_SIZE {
      AllocateGrowsAndFits(r, s, layout);
    } else {
      AllocateIsOversize(r, s, layout);
    }
  }

  lemma AllocateGrowsAndFits(r: Run, s: Ideal, layout: Layout)
    requires Coupled(r, s) && layout.align > 0 && layout.size > 0 && r.st.chunks[r.st.current].Fit(layout).None?
    requires layout.size <= MAX_CHUNK_SIZE
    ensures var (r', a) := Step(r, Allocate(layout, true));
            var (s', b) := IdealStep(s, Allocate(layout, true));
            Coupled(r', s') && SameAnswer(a, b, r'.path)
  {
    var (r', _) := Step(r, Allocate(layout, true));
    var (s', _) := IdealStep(s, Allocate(layout, true));
    assert r.st.chunks[r.st.current] == s.chunks[|s.chunks| - 1];
    AllocateKeepsInv(r, layout, true);
    GrowthIsTight(layout.size);
    GrownAllocation(r.st, layout);
    Grown(r, s, r', s', ChunkState(Growth(layout.size), layout.size));
  }

  lemma AllocateIsOversize(r: Run, s: Ideal, layout: Layout)
    requires Coupled(r, s) && layout.align > 0 && layout.size > 0 && r.st.chunks[r.st.current].Fit(layout).None?
    requires layout.size > MAX_CHUNK_SIZE
    ensures var (r', a) := Step(r, Allocate(layout, true));
            var (s', b) := IdealStep(s, Allocate(layout, true));
            Coupled(r', s') && SameAnswer(a, b, r'.path)
  {
    var (r', _) := Step(r, Allocate(layout, true));
    var (s', _) := IdealStep(s, Allocate(layout, true));
    assert r.st.chunks[r.st.current] == s.chunks[|s.chunks| - 1];
    AllocateKeepsInv(r, layout, true);
    GrowthIsTight(layout.size);
    OversizeAborts(r.st, layout);
    Grown(r, s, r', s', ChunkState(Growth(layout.size), 0));
  }

  lemma AllocateCoupled(r: Run, s: Ideal, layout: Layout, memory: bool)
    requires Coupled(r, s) && layout.align > 0
    ensures var (r', a) := Step(r, Allocate(layout, memory));
            var (s', b) := IdealStep(s, Allocate(layout, memory));
            Coupled(r', s') && SameAnswer(a, b, r'.path)
  {
    assert r.st.chunks[r.st.current] == s.chunks[|s.chunks| - 1];
    if layout.size == 0 || (r.st.chunks[r.st.current].Fit(layout).None? && !memory) {
      AllocateKeepsInv(r, layout, memory);
    } else if r.st.chunks[r.st.current].Fit(layout).Some? {
      AllocateFits(r, s, layout, memory);
    } else {
      AllocateGrows(r, s, layout);
    }
  }

  lemma NewMarkMatches(r: Run, s: Ideal)
    requires Matches(r, s)
    ensures MarksMatch(r.marks + [CheckpointOf(r.st)], r.path, s.marks + [Saved(s.chunks, s.count)], s.chunks)
  {
    var cp, saved := CheckpointOf(r.st), Saved(s.chunks, s.count);
    assert r.st.chunks[r.st.current] == s.chunks[|s.chunks| - 1];
    assert MarkMatches(cp, r.path, saved, s.chunks);
    forall k | 0 <= k < |r.marks| ensures Earlier(s.marks[k].chunks, saved.chunks) {
      assert MarkMatches(r.marks[k], r.path, s.marks[k], s.chunks);
    }
  }

  lemma MarkingCoupled(r: Run, s: Ideal, op: Op)
    requires Coupled(r, s) && (op.TakeCheckpoint? || op.Push?)
    ensures Coupled(Step(r, op).0, IdealStep(s, op).0) && Step(r, op).1 == IdealStep(s, op).1
  {
    MarkingKeepsInv(r, op);
    MarkingMatches(r, s, op);
  }

  lemma MarkingMatches(r: Run, s: Ideal, op: Op)
    requires Matches(r, s) && (op.TakeCheckpoint? || op.Push?)
    ensures Matches(Step(r, op).0, IdealStep(s, op).0)
  {
    NewMarkMatches(r, s);
  }

  lemma {:induction false} CutPathIsPrefix(path: seq<nat>, d: nat)
    requires 0 < d <= |path| && forall p, q :: 0 <= p < q < |path| ==> path[p] < path[q]
    ensures CutPath(path, path[d - 1]) == path[..d]
  {
    if d < |path| {
      var n := |path| - 1;
      CutPathIsPrefix(path[..n], d);
      assert path[..n][..d] == path[..d];
    } else {
      assert path[..d] == path;
    }
  }

  /** Dropping entries by id and dropping them by position agree. */
  lemma {:induction false} RetainMatches(stack: seq<Checkpoint>, marks: seq<Checkpoint>, positions: seq<nat>, k: nat)
    requires Sorted(marks) && k < |marks| && StacksMatch(stack, marks, positions)
    ensures StacksMatch(Retain(stack, marks[k].id), marks[..k + 1], BelowIn(positions, k))
    ensures forall j :: 0 <= j < |BelowIn(positions, k)| ==> BelowIn(positions, k)[j] in positions
  {
    if stack != [] {
      var n := |stack| - 1;
      RetainMatches(stack[..n], marks, positions[..n], k);
      var p := positions[n];
      if p < k {
        assert Older(marks[p], marks[k]);
      } else if p > k {
        assert Older(marks[k], marks[p]);
      }
      var kept := BelowIn(positions[..n], k);
      forall j | 0 <= j < |kept| ensures kept[j] < p && kept[j] in positions {
        assert kept[j] in positions[..n];
      }
    }
  }

  /** A rewind to a checkpoint whose copy is an earlier stage. */
  ghost predicate Rewinds(st: State, path: seq<nat>, chunks: seq<ChunkState>, cp: Checkpoint, saved: Saved,
                          st': State) {
    && ChunksMatch(st, path, chunks) && MarkMatches(cp, path, saved, chunks)
    && st'.chunks == RewindChunks(st.chunks, cp.chunkIndex, cp.chunkOffset) && st'.current == cp.chunkIndex
  }

  lemma RewoundChunks(st: State, path: seq<nat>, chunks: seq<ChunkState>, cp: Checkpoint, saved: Saved, st': State)
    requires Rewinds(st, path, chunks, cp, saved, st')
    ensures ChunksMatch(st', path[..|saved.chunks|], saved.chunks)
  {
  }

  lemma RewoundSpares(st: State, path: seq<nat>, chunks: seq<ChunkState>, cp: Checkpoint, saved: Saved, st': State)
    requires Rewinds(st, path, chunks, cp, saved, st') && SparesEmpty(st, path)
    ensures SparesEmpty(st', path[..|saved.chunks|])
  {
    var d := |saved.chunks|;
    forall q | 0 <= q < |path| && path[q] <= cp.chunkIndex ensures path[q] in path[..d] {
      assert path[..d][q] == path[q];
    }
    assert cp.chunkIndex in path;
  }

  lemma RewindChunksMatch(st: State, path: seq<nat>, chunks: seq<ChunkState>, cp: Checkpoint, saved: Saved, st': State)
    requires ChunksMatch(st, path, chunks) && SparesEmpty(st, path) && MarkMatches(cp, path, saved, chunks)
    requires st'.chunks == RewindChunks(st.chunks, cp.chunkIndex, cp.chunkOffset) && st'.current == cp.chunkIndex
    ensures CutPath(path, cp.chunkIndex) == path[..|saved.chunks|]
    ensures ChunksMatch(st', CutPath(path, cp.chunkIndex), saved.chunks)
    ensures SparesEmpty(st', CutPath(path, cp.chunkIndex))
  {
    CutPathIsPrefix(path, |saved.chunks|);
    RewoundChunks(st, path, chunks, cp, saved, st');
    RewoundSpares(st, path, chunks, cp, saved, st');
  }

  lemma RewindMarksMatch(marks: seq<Checkpoint>, path: seq<nat>, saved: seq<Saved>, chunks: seq<ChunkState>, k: nat)
    requires MarksMatch(marks, path, saved, chunks) && k < |marks|
    ensures MarkMatches(marks[k], path, saved[k], chunks)
    ensures MarksMatch(marks[..k + 1], path[..|saved[k].chunks|], saved[..k + 1], saved[k].chunks)
  {
    assert MarkMatches(marks[k], path, saved[k], chunks);
    forall j | 0 <= j <= k ensures MarkMatches(marks[j], path[..|saved[k].chunks|], saved[j], saved[k].chunks) {
      assert MarkMatches(marks[j], path, saved[j], chunks);
      if j < k {
        assert Earlier(saved[j].chunks, saved[k].chunks);
      }
    }
  }

  lemma RewindMatches(r: Run, s: Ideal, k: nat, n: nat)
    requires Matches(r, s) && Sorted(r.marks) && k < |r.marks| && n <= |s.stack| && Rewindable(r.st, r.marks[k])
    ensures Matches(Rewound(r, RewindTo(r.st.(checkpoints := r.st.checkpoints[..n]), r.marks[k]), r.marks[k]),
                    IdealRewind(s.(stack := s.stack[..n]), k))
  {
    var st := RewindTo(r.st.(checkpoints := r.st.checkpoints[..n]), r.marks[k]);
    RewindMarksMatch(r.marks, r.path, s.marks, s.chunks, k);
    RewindChunksMatch(r.st, r.path, s.chunks, r.marks[k], s.marks[k], st);
    RewindStacksMatch(r, s, k, n);
  }

  lemma RewindStacksMatch(r: Run, s: Ideal, k: nat, n: nat)
    requires StacksMatch(r.st.checkpoints, r.marks, s.stack) && Sorted(r.marks) && k < |r.marks| && n <= |s.stack|
    ensures Retain(r.marks, r.marks[k].id + 1) == r.marks[..k + 1]
    ensures StacksMatch(Retain(r.st.checkpoints[..n], r.marks[k].id), r.marks[..k + 1], BelowIn(s.stack[..n], k))
  {
    RetainUpTo(r.marks, k);
    RetainMatches(r.st.checkpoints[..n], r.marks, s.stack[..n], k);
  }

  /** Rewinding, with the two stacks already popped down to `n` entries. */
  lemma RewindCoupled(r: Run, s: Ideal, k: nat, n: nat)
    requires Coupled(r, s) && k < |r.marks| && n <= |s.stack|
    ensures var popped := r.st.(checkpoints := r.st.checkpoints[..n]);
            && Rewindable(popped, r.marks[k])
            && Coupled(Rewound(r, RewindTo(popped, r.marks[k]), r.marks[k]), IdealRewind(s.(stack := s.stack[..n]), k))
  {
    RewindKeepsInv(r, k, r.st.checkpoints[..n]);
    RewindMatches(r, s, k, n);
  }

  lemma PopUnfolds(r: Run, n: nat, cp: Checkpoint)
    requires r.st.chunks != [] && |r.st.checkpoints| == n + 1 && r.st.checkpoints[n] == cp && Rewindable(r.st, cp)
    ensures Step(r, Pop) == (Rewound(r, RewindTo(r.st.(checkpoints := r.st.checkpoints[..n]), cp), cp), Done)
  {
  }

  lemma PopCoupled(r: Run, s: Ideal)
    requires Coupled(r, s)
    ensures r.st.chunks != [] && IdealAllowed(s, Pop)
    ensures Coupled(Step(r, Pop).0, IdealStep(s, Pop).0) && Step(r, Pop).1 == IdealStep(s, Pop).1
  {
    if s.stack != [] {
      var n := |s.stack| - 1;
      var k := s.stack[n];
      assert k < |r.marks| && r.st.checkpoints[n] == r.marks[k];
      RewindCoupled(r, s, k, n);
      PopUnfolds(r, n, r.marks[k]);
    }
  }

  lemma ResetsCoupled(r: Run, s: Ideal, op: Op)
    requires Coupled(r, s) && (op.Reset? || op.Shrink?)
    ensures Coupled(Step(r, op).0, IdealStep(s, op).0) && Step(r, op).1 == IdealStep(s, op).1
  {
    ResetsKeepInv(r);
    assert s.chunks[0] == r.st.chunks[r.path[0]];
    assert 0 in [0];
  }

  /** One step: the real arena answers as the ideal one and stays coupled. */
  lemma StepCoupled(r: Run, s: Ideal, op: Op)
    requires Coupled(r, s) && Allowed(r, op)
    ensures IdealAllowed(s, op)
    ensures Coupled(Step(r, op).0, IdealStep(s, op).0)
    ensures SameAnswer(Step(r, op).1, IdealStep(s, op).1, Step(r, op).0.path)
  {
    match op
    case Allocate(layout, memory) => AllocateCoupled(r, s, layout, memory);
    case TakeCheckpoint => MarkingCoupled(r, s, op);
    case Push => MarkingCoupled(r, s, op);
    case Pop => PopCoupled(r, s);
    case Rewind(k) =>
      assert r.st.(checkpoints := r.st.checkpoints[..|s.stack|]) == r.st;
      assert s.(stack := s.stack[..|s.stack|]) == s;
      RewindCoupled(r, s, k, |s.stack|);
    case Clear => ClearKeepsInv(r);
    case Reset => ResetsCoupled(r, s, op);
    case Shrink => ResetsCoupled(r, s, op);
  }
}
