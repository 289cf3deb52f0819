/** The chunked bump arena with checkpoints, default feature set: its state
    and what each operation does to it.  `ArenaInner` in ArenaClass.dfy is the
    imperative form; the theorems are about these functions. */
module ArenaState {
  import opened Alignment
  import opened Options

  const CHUNK_ALIGN: nat := 64
  const MIN_CHUNK_SIZE: nat := 4096
  const MAX_CHUNK_SIZE: nat := 16 * 1024 * 1024

  datatype ChunkState = ChunkState(capacity: nat, used: nat) {
    /** Where a request would start in this chunk, if it fits. */
    function Fit(layout: Layout): (r: Option<nat>)
      requires layout.align > 0
      ensures r.Some? ==> used <= r.value && r.value % layout.align == 0 && r.value + layout.size <= capacity
    {
      var start := AlignUp(used, layout.align);
      if start + layout.size <= capacity then Some(start) else None
    }
  }

  datatype Checkpoint = Checkpoint(chunkIndex: nat, chunkOffset: nat, id: nat, allocationCount: nat)

  datatype State = State(
    chunks: seq<ChunkState>, current: nat, checkpoints: seq<Checkpoint>, nextId: nat,
    bytesUsed: nat, allocationCount: nat, chunkCount: nat)

  /** The shape every reachable arena has. */
  ghost predicate Shaped(st: State) {
    && st.current < |st.chunks| == st.chunkCount
    && (forall i :: 0 <= i < |st.chunks| ==> ChunkOk(st.chunks[i]))
    && (forall i :: st.current < i < |st.chunks| ==> st.chunks[i].used == 0)
  }

  predicate ChunkOk(c: ChunkState) {
    0 < c.capacity <= MAX_LAYOUT && c.capacity % CHUNK_ALIGN == 0 && c.used <= c.capacity
  }

  function SumUsed(chunks: seq<ChunkState>): nat {
    if chunks == [] then 0 else SumUsed(chunks[..|chunks| - 1]) + chunks[|chunks| - 1].used
  }

  // ----- growth -----

  /** The least 4096 * 2^k at or above `size`, capped at 16 MiB. */
  function Growth(size: nat): nat {
    Doubled(MIN_CHUNK_SIZE, size)
  }

  /** The doubling loop of `next_chunk_capacity` from `capacity` on. */
  function Doubled(capacity: nat, size: nat): nat
    requires capacity > 0
    decreases MAX_CHUNK_SIZE - capacity
  {
    if capacity < size && capacity < MAX_CHUNK_SIZE then Doubled(2 * capacity, size) else capacity
  }

  // ----- operations -----

  /** `Chunk::new`: `None` for a zero capacity, an invalid layout or no memory. */
  function NewChunk(capacity: nat, memory: bool): Option<ChunkState> {
    var rounded := AlignUp(capacity, CHUNK_ALIGN);
    if capacity == 0 || rounded > MAX_LAYOUT || !memory then None else Some(ChunkState(rounded, 0))
  }

  function NewState(chunk: ChunkState): State {
    State([chunk], 0, [], 0, 0, 0, 1)
  }

  /** The index the code uses when `current` is out of range. */
  function Clamped(st: State): nat
    requires st.chunks != []
  {
    if st.current >= |st.chunks| then |st.chunks| - 1 else st.current
  }

  datatype Place = Place(chunk: nat, start: nat)

  /** `ArenaInner::allocate`: bump the current chunk, or report that it is full. */
  function InnerAllocate(st: State, layout: Layout): (State, Option<Place>)
    requires st.chunks != [] && layout.align > 0
  {
    var i := Clamped(st);
    match st.chunks[i].Fit(layout)
    case None => (st, None)
    case Some(start) =>
      (st.(chunks := st.chunks[i := st.chunks[i].(used := start + layout.size)],
           bytesUsed := st.bytesUsed + layout.size,
           allocationCount := st.allocationCount + 1), Some(Place(i, start)))
  }

  function AddChunk(st: State, chunk: ChunkState): State {
    st.(chunks := st.chunks + [chunk], current := |st.chunks|, chunkCount := |st.chunks| + 1)
  }

  /** `grown` is the capacity of the chunk added for this request, if any. */
  datatype Outcome = ZeroSized | Granted(place: Place, grown: Option<nat>) | Aborted

  /** `Arena::allocate_raw`; `memory` says whether the system allocator would
      provide a new chunk.  `Aborted` is `handle_alloc_error`. */
  function AllocateRaw(st: State, layout: Layout, memory: bool): (State, Outcome)
    requires st.chunks != [] && layout.align > 0
  {
    if layout.size == 0 then (st.(allocationCount := st.allocationCount + 1), ZeroSized)
    else
      var (st1, place) := InnerAllocate(st, layout);
      if place.Some? then (st1, Granted(place.value, None))
      else
        match NewChunk(Growth(layout.size), memory)
        case None => (st1, Aborted)
        case Some(chunk) =>
          var (st2, place2) := InnerAllocate(AddChunk(st1, chunk), layout);
          (st2, if place2.Some? then Granted(place2.value, Some(chunk.capacity)) else Aborted)
  }

  /** The checkpoint that `checkpoint` takes in a state. */
  function CheckpointOf(st: State): Checkpoint
    requires st.chunks != []
  {
    Checkpoint(Clamped(st), st.chunks[Clamped(st)].used, st.nextId, st.allocationCount)
  }

  function Taken(st: State): State {
    st.(nextId := st.nextId + 1)
  }

  function Pushed(st: State): State
    requires st.chunks != []
  {
    Taken(st).(checkpoints := st.checkpoints + [CheckpointOf(st)])
  }

  /** The two assertions at the head of `rewind_to_checkpoint`. */
  predicate Rewindable(st: State, cp: Checkpoint) {
    cp.chunkIndex < |st.chunks| && cp.chunkOffset <= st.chunks[cp.chunkIndex].capacity
  }

  function RewindChunks(chunks: seq<ChunkState>, index: nat, offset: nat): (r: seq<ChunkState>)
    ensures |r| == |chunks|
    ensures forall i :: 0 <= i < |r| ==>
              r[i] == if i < index then chunks[i] else chunks[i].(used := if i == index then offset else 0)
  {
    seq(|chunks|, i requires 0 <= i < |chunks| =>
      if i < index then chunks[i] else chunks[i].(used := if i == index then offset else 0))
  }

  /** `Vec::retain` with `checkpoint_id < id`. */
  function Retain(stack: seq<Checkpoint>, id: nat): seq<Checkpoint> {
    if stack == [] then []
    else
      var last := stack[|stack| - 1];
      Retain(stack[..|stack| - 1], id) + if last.id < id then [last] else []
  }

  function RewindTo(st: State, cp: Checkpoint): State
    requires Rewindable(st, cp)
  {
    var chunks := RewindChunks(st.chunks, cp.chunkIndex, cp.chunkOffset);
    st.(chunks := chunks,
        current := cp.chunkIndex,
        checkpoints := Retain(st.checkpoints, cp.id),
        bytesUsed := SumUsed(chunks[..cp.chunkIndex + 1]),
        allocationCount := cp.allocationCount)
  }

  /** `pop_and_rewind`; `None` when it panics. */
  function PopAndRewind(st: State): Option<State> {
    if st.checkpoints == [] then None
    else
      var cp := st.checkpoints[|st.checkpoints| - 1];
      var popped := st.(checkpoints := st.checkpoints[..|st.checkpoints| - 1]);
      if Rewindable(popped, cp) then Some(RewindTo(popped, cp)) else None
  }

  function Cleared(st: State): State {
    st.(checkpoints := [])
  }

  function ResetState(st: State): State {
    st.(chunks := RewindChunks(st.chunks, 0, 0), current := 0, checkpoints := [], bytesUsed := 0, allocationCount := 0)
  }

  function ShrunkState(st: State): State
    requires st.chunks != []
  {
    st.(chunks := [st.chunks[0].(used := 0)], current := 0, checkpoints := [],
        bytesUsed := 0, allocationCount := 0, chunkCount := 1)
  }

  // ----- where a request goes -----

  /** An aligned place at or above the bump position, with room for the request. */
  predicate FitsAt(c: ChunkState, layout: Layout, m: nat)
    requires layout.align > 0
  {
    MultipleFrom(m, c.used, layout.align) && m + layout.size <= c.capacity
  }

  ghost predicate HasRoom(c: ChunkState, layout: Layout)
    requires layout.align > 0
  {
    exists m: nat :: FitsAt(c, layout, m)
  }

  /** A chunk serves a request exactly when it has room for it anywhere, and then
      at the least aligned offset. */
  lemma FitIsLeast(c: ChunkState, layout: Layout)
    requires layout.align > 0
    ensures c.Fit(layout).Some? <==> HasRoom(c, layout)
    ensures c.Fit(layout).Some? ==>
              LeastFrom(c.Fit(layout).value, c.used, layout.align) && FitsAt(c, layout, c.Fit(layout).value)
  {
    AlignUpLeastFrom(c.used, layout.align);
    if m: nat :| FitsAt(c, layout, m) {
      assert MultipleFrom(m, c.used, layout.align);
    }
    if c.Fit(layout).Some? {
      assert FitsAt(c, layout, c.Fit(layout).value);
    }
  }

  /** A request that the current chunk has room for starts at its least aligned
      offset, and moves nothing but that chunk's bump position. */
  lemma AllocatesAtLeast(st: State, layout: Layout, memory: bool)
    requires Shaped(st) && layout.align > 0 && layout.size > 0 && HasRoom(st.chunks[st.current], layout)
    ensures var (st', out) := AllocateRaw(st, layout, memory);
            && out.Granted? && out.place.chunk == st.current && out.grown.None?
            && LeastFrom(out.place.start, st.chunks[st.current].used, layout.align)
            && st' == st.(chunks := st.chunks[st.current := ChunkState(st.chunks[st.current].capacity,
                                                                       out.place.start + layout.size)],
                          bytesUsed := st.bytesUsed + layout.size, allocationCount := st.allocationCount + 1)
  {
    FitIsLeast(st.chunks[st.current], layout);
  }

  /** A chunk is made for every request for some bytes that has a multiple of 64
      at or above it among the valid sizes, if there is memory; and its capacity
      is the least one. */
  lemma NewChunkIsLeast(capacity: nat, memory: bool)
    ensures NewChunk(capacity, memory).Some? <==>
              capacity > 0 && memory && exists m: nat :: MultipleFrom(m, capacity, 64) && m <= MAX_LAYOUT
    ensures NewChunk(capacity, memory).Some? ==>
              var c := NewChunk(capacity, memory).value; LeastFrom(c.capacity, capacity, 64) && c.used == 0
  {
    AlignUpLeastFrom(capacity, 64);
    assert MultipleFrom(AlignUp(capacity, 64), capacity, 64);
  }

  // ----- growth is sufficient and tight -----

  lemma {:induction false} DoubledBounds(k: nat, size: nat)
    requires k <= 12 && (k == 0 || MIN_CHUNK_SIZE * Pow2(k) < 2 * size)
    ensures var c := Doubled(MIN_CHUNK_SIZE * Pow2(k), size);
            && c % CHUNK_ALIGN == 0
            && (exists j: nat :: c == MIN_CHUNK_SIZE * Pow2(j))
            && MIN_CHUNK_SIZE <= c <= MAX_CHUNK_SIZE
            && (size <= MAX_CHUNK_SIZE ==> size <= c && (c == MIN_CHUNK_SIZE || c < 2 * size))
            && (size > MAX_CHUNK_SIZE ==> c == MAX_CHUNK_SIZE)
    decreases 12 - k
  {
    assert Pow2(12) == 4096;
    if k < 12 {
      Pow2Grows(k, 12);
      if MIN_CHUNK_SIZE * Pow2(k) < size {
        DoubledBounds(k + 1, size);
        assert MIN_CHUNK_SIZE * Pow2(k + 1) == 2 * (MIN_CHUNK_SIZE * Pow2(k));
      }
    }
  }

  /** A grown chunk is 4096 bytes doubled some number of times; up to 16 MiB it
      holds the request and is 4096 bytes or less than twice the request. */
  lemma GrowthIsTight(size: nat)
    ensures exists j: nat :: Growth(size) == MIN_CHUNK_SIZE * Pow2(j)
    ensures MIN_CHUNK_SIZE <= Growth(size) <= MAX_CHUNK_SIZE && Growth(size) % CHUNK_ALIGN == 0
    ensures size <= MAX_CHUNK_SIZE <==> size <= Growth(size)
    ensures size <= MAX_CHUNK_SIZE && Growth(size) != MIN_CHUNK_SIZE ==> Growth(size) < 2 * size
  {
    DoubledBounds(0, size);
  }

  /** Given memory, a non-empty request succeeds exactly when the current chunk
      has room for it or it is at most 16 MiB. */
  lemma AllocateSucceedsIff(st: State, layout: Layout)
    requires Shaped(st) && layout.align > 0 && layout.size > 0
    ensures AllocateRaw(st, layout, true).1.Granted? <==>
              HasRoom(st.chunks[st.current], layout) || layout.size <= MAX_CHUNK_SIZE
    ensures AllocateRaw(st, layout, false).1.Granted? <==> HasRoom(st.chunks[st.current], layout)
  {
    FitIsLeast(st.chunks[st.current], layout);
    var c := Growth(layout.size);
    GrowthIsTight(layout.size);
    AlignUpOfMultiple(c, CHUNK_ALIGN);
    AlignUpOfMultiple(0, layout.align);
  }

  /** What a grown allocation looks like: a fresh last chunk, used from its start. */
  lemma GrownAllocation(st: State, layout: Layout)
    requires Shaped(st) && layout.align > 0 && layout.size > 0
    requires st.chunks[st.current].Fit(layout).None?
    ensures var (st', out) := AllocateRaw(st, layout, true);
            var c := Growth(layout.size);
            layout.size <= MAX_CHUNK_SIZE ==>
              && out == Granted(Place(|st.chunks|, 0), Some(c))
              && ChunkOk(ChunkState(c, layout.size))
              && st' == st.(chunks := st.chunks + [ChunkState(c, layout.size)], current := |st.chunks|,
                            bytesUsed := st.bytesUsed + layout.size, allocationCount := st.allocationCount + 1,
                            chunkCount := |st.chunks| + 1)
  {
    var c := Growth(layout.size);
    GrowthIsTight(layout.size);
    AlignUpOfMultiple(c, CHUNK_ALIGN);
    AlignUpOfMultiple(0, layout.align);
    var n := |st.chunks|;
    var used := ChunkState(c, layout.size);
    assert (st.chunks + [ChunkState(c, 0)])[n := used] == st.chunks + [used];
  }
}
