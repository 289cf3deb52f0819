/** Runs in which a scope does not restore what it might be thought to. */
module ArenaScopeExamples {
  import opened Alignment
  import opened ArenaState
  import opened ArenaRuns
  import opened ArenaScopes
  import opened ArenaScopeLimits
  import opened Options

  lemma Aligned1(v: nat)
    ensures AlignUp(v, 1) == v
  {
    AlignUpOfMultiple(v, 1);
  }

  /** `size` bytes, then `more`: the second request adds a chunk. */
  lemma TwoChunks(first: nat, size: nat, more: nat, st: State)
    requires ChunkOk(ChunkState(first, 0)) && 0 < size <= first < size + more && more <= MIN_CHUNK_SIZE
    requires st.chunks == [ChunkState(first, 0)] && st.current == 0 && Good(st)
    ensures var st1 := AllocateRaw(st, Layout(size, 1), true).0;
            var (st2, out) := AllocateRaw(st1, Layout(more, 1), true);
            && AllocateRaw(st, Layout(size, 1), true).1.Granted? && out.Granted?
            && st2.chunks == [ChunkState(first, size), ChunkState(MIN_CHUNK_SIZE, more)] && st2.current == 1
            && st2.checkpoints == st.checkpoints && st2.nextId == st.nextId
            && st2.allocationCount == st.allocationCount + 2
  {
    Aligned1(0);
    Aligned1(size);
    var st1 := AllocateRaw(st, Layout(size, 1), true).0;
    assert st1.chunks == [ChunkState(first, size)];
    assert Shaped(st1);
    GrownAllocation(st1, Layout(more, 1));
    assert Growth(more) == MIN_CHUNK_SIZE;
  }

  function Allocs(size: nat, more: nat): seq<Prog> {
    [Alloc(Layout(size, 1), true), Alloc(Layout(more, 1), true)]
  }

  /** An arena of one chunk of 4096 bytes, inside an outer scope. */
  function Outer(): State {
    Taken(NewState(ChunkState(4096, 0)))
  }

  const OUTER_MARK := Checkpoint(0, 0, 0, 0)

  /** Inside an outer scope, 3000 bytes and 2000 bytes are allocated. */
  lemma BeforeInnerScope() returns (entry: State)
    ensures NewChunk(4096, true) == Some(ChunkState(4096, 0))
    ensures CheckpointOf(NewState(ChunkState(4096, 0))) == OUTER_MARK
    ensures AllWellNested(Allocs(3000, 2000), 1)
    ensures ExecAll(Allocs(3000, 2000), Outer(), [OUTER_MARK]) == (entry, Normal)
    ensures entry.chunks == [ChunkState(4096, 3000), ChunkState(4096, 2000)] && entry.current == 1
    ensures entry.allocationCount == 2
  {
    AlignUpOfMultiple(4096, 64);
    TwoChunks(4096, 3000, 2000, Outer());
    Pair(Allocs(3000, 2000)[0], Allocs(3000, 2000)[1], Outer(), [OUTER_MARK]);
    entry := ExecAll(Allocs(3000, 2000), Outer(), [OUTER_MARK]).0;
  }

  /** An inner scope is entered there, which resets the outer one.  After it the
      first chunk is empty, the second is used, and two allocations are counted. */
  lemma ResetOfOuterScope(entry: State) returns (exit: State)
    requires entry.chunks == [ChunkState(4096, 3000), ChunkState(4096, 2000)] && entry.current == 1
    requires entry.allocationCount == 2
    ensures Exec(Scoped([ResetScope(0)]), entry, [OUTER_MARK]) == (exit, Normal)
    ensures exit.chunks == [ChunkState(4096, 0), ChunkState(4096, 2000)] && exit.allocationCount == 2
    ensures !Restored(entry, exit) && !Spares(entry, OUTER_MARK)
  {
    Alone(ResetScope(0), Taken(entry), [OUTER_MARK] + [CheckpointOf(entry)]);
    var st := RewindTo(Taken(entry), OUTER_MARK);
    assert st.chunks == [ChunkState(4096, 0), ChunkState(4096, 0)];
    exit := RewindTo(st, CheckpointOf(entry));
    assert exit.chunks == [ChunkState(4096, 0), ChunkState(4096, 2000)];
  }

  /** The whole run. */
  lemma InnerScopeNotRestored() returns (entry: State, exit: State)
    ensures AllWellNested(Allocs(3000, 2000), 1)
    ensures ExecAll(Allocs(3000, 2000), Outer(), [OUTER_MARK]) == (entry, Normal)
    ensures CheckpointOf(NewState(ChunkState(4096, 0))) == OUTER_MARK
    ensures Exec(Scoped([ResetScope(0)]), entry, [OUTER_MARK]) == (exit, Normal) && !Restored(entry, exit)
  {
    entry := BeforeInnerScope();
    exit := ResetOfOuterScope(entry);
  }

  /** 64 bytes, then 100, in an arena whose first chunk has 64. */
  lemma Filled() returns (st: State)
    ensures NewChunk(64, true) == Some(ChunkState(64, 0))
    ensures AllWellNested(Allocs(64, 100), 0)
    ensures ExecAll(Allocs(64, 100), NewState(ChunkState(64, 0)), []) == (st, Normal)
    ensures st.chunks == [ChunkState(64, 64), ChunkState(4096, 100)] && st.current == 1
  {
    AlignUpOfMultiple(64, 64);
    var st0 := NewState(ChunkState(64, 0));
    TwoChunks(64, 64, 100, st0);
    Pair(Allocs(64, 100)[0], Allocs(64, 100)[1], st0, []);
    st := ExecAll(Allocs(64, 100), st0, []).0;
  }

  /** A scope entered there that shrinks the arena panics at its end. */
  lemma ShrinkPanics() returns (st: State)
    ensures AllWellNested(Allocs(64, 100), 0)
    ensures ExecAll(Allocs(64, 100), NewState(ChunkState(64, 0)), []) == (st, Normal)
    ensures Exec(Scoped([ShrinkToFit]), st, []).1 == Unwinding
  {
    st := Filled();
    Alone(ShrinkToFit, Taken(st), [] + [CheckpointOf(st)]);
  }

  /** A scope entered there that shrinks the arena and allocates 100 bytes more
      does not panic; it rewinds into a different chunk. */
  lemma ShrinkAndGrowReturns() returns (st: State)
    ensures AllWellNested(Allocs(64, 100), 0)
    ensures ExecAll(Allocs(64, 100), NewState(ChunkState(64, 0)), []) == (st, Normal)
    ensures var (st', mode) := Exec(Scoped([ShrinkToFit, Alloc(Layout(100, 1), true)]), st, []);
            mode == Normal && st'.current == 1 && !Restored(st, st')
  {
    st := Filled();
    var z := ShrunkState(Taken(st));
    assert z.chunks == [ChunkState(64, 0)] && Shaped(z);
    Aligned1(0);
    GrownAllocation(z, Layout(100, 1));
    assert Growth(100) == 4096;
    Pair(ShrinkToFit, Alloc(Layout(100, 1), true), Taken(st), [] + [CheckpointOf(st)]);
  }

  /** One byte, then eight aligned bytes: nine bytes requested, sixteen used.
      In this run an empty scope changes `bytes_used` from 9 to 16. */
  lemma BytesUsedNotRestored() returns (trace: seq<Run>)
    ensures IsRun(trace, [Allocate(Layout(1, 1), true), Allocate(Layout(8, 8), true)])
    ensures trace[0] == Fresh(ChunkState(4096, 0)) && trace[2].st.bytesUsed == 9
    ensures Exec(Scoped([]), trace[2].st, []).1 == Normal && Exec(Scoped([]), trace[2].st, []).0.bytesUsed == 16
  {
    AlignUpOfMultiple(4096, 64);
    assert NewChunk(4096, true) == Some(ChunkState(4096, 0));
    var r0 := Fresh(ChunkState(4096, 0));
    Aligned1(0);
    var r1 := Step(r0, Allocate(Layout(1, 1), true)).0;
    assert r1.st.chunks == [ChunkState(4096, 1)];
    AlignUpIsLeast(1, 8, 8);
    assert AlignUp(1, 8) == 8;
    var r2 := Step(r1, Allocate(Layout(8, 8), true)).0;
    assert r2.st.chunks == [ChunkState(4096, 16)] && r2.st.bytesUsed == 9;
    assert r2.st.chunks[..0] == [];
    ScopeRestores([], r2.st, []);
    ScopeRestoresBytesUsedIff([], r2.st, []);
    trace := [r0, r1, r2];
  }
}
