/** The arena as the source has it: chunks whose bump pointer is updated in
    place, and an inner object that updates its chunk list, checkpoint stack
    and counters.  Every method is proved against the state functions. */
module ArenaClass {
  import opened Alignment
  import opened ArenaState
  import opened Options

  /** `next_chunk_capacity`. */
  method NextChunkCapacity(minSize: nat) returns (capacity: nat)
    ensures capacity == Growth(minSize)
  {
    capacity := MIN_CHUNK_SIZE;
    GrowthIsTight(minSize);
    while capacity < minSize && capacity < MAX_CHUNK_SIZE
      invariant capacity > 0 && Doubled(capacity, minSize) == Growth(minSize)
      decreases MAX_CHUNK_SIZE - capacity
    {
      capacity := capacity * 2;
    }
    capacity := if capacity > minSize then capacity else minSize;
    capacity := if capacity < MAX_CHUNK_SIZE then capacity else MAX_CHUNK_SIZE;
  }

  class Chunk {
    const capacity: nat
    var used: nat

    ghost function View(): ChunkState
      reads this
    {
      ChunkState(capacity, used)
    }

    constructor (capacity: nat)
      ensures View() == ChunkState(capacity, 0)
    {
      this.capacity, used := capacity, 0;
    }

    /** `Chunk::new`; `memory` is the answer of the system allocator. */
    static method Create(capacity: nat, memory: bool) returns (r: Option<Chunk>)
      ensures r.Some? <==> NewChunk(capacity, memory).Some?
      ensures r.Some? ==> fresh(r.value) && r.value.View() == NewChunk(capacity, memory).value
      ensures r.Some? ==> LeastFrom(r.value.capacity, capacity, 64)
    {
      NewChunkIsLeast(capacity, memory);
      if capacity == 0 {
        return None;
      }
      var rounded := AlignUp(capacity, CHUNK_ALIGN);
      if rounded > MAX_LAYOUT || !memory {
        return None;
      }
      var c := new Chunk(rounded);
      r := Some(c);
    }

    /** `Chunk::allocate` by one thread; the weak CAS fails `spurious` times. */
    method Allocate(layout: Layout, spurious: nat) returns (start: Option<nat>)
      requires layout.align > 0
      modifies this
      ensures start == old(View()).Fit(layout)
      ensures start.Some? ==> LeastFrom(start.value, old(used), layout.align) && start.value + layout.size <= capacity
      ensures start.None? ==> !HasRoom(old(View()), layout)
      ensures View() == if start.Some? then old(View()).(used := start.value + layout.size) else old(View())
    {
      FitIsLeast(View(), layout);
      var failures := spurious;
      while true
        invariant used == old(used)
        decreases failures
      {
        var currentUsed := used;
        var s := AlignUp(currentUsed, layout.align);
        var end := s + layout.size;
        if end > capacity {
          return None;
        }
        if failures == 0 {
          used := end;
          return Some(s);
        }
        failures := failures - 1;
      }
    }

    method SetUsed(value: nat)
      modifies this
      ensures View() == old(View()).(used := value)
    {
      used := value;
    }
  }

  ghost function Views(chunks: seq<Chunk>): (r: seq<ChunkState>)
    reads chunks
    ensures |r| == |chunks|
    ensures forall i :: 0 <= i < |r| ==> r[i] == chunks[i].View()
  {
    seq(|chunks|, i requires 0 <= i < |chunks| reads chunks => chunks[i].View())
  }

  class ArenaInner {
    var chunks: seq<Chunk>
    var currentChunk: nat
    var checkpoints: seq<Checkpoint>
    var currentCheckpointId: nat
    var bytesUsed: nat
    var allocationCount: nat
    var chunkCount: nat

    ghost predicate Valid()
      reads this
    {
      chunks != [] && forall i, j :: 0 <= i < j < |chunks| ==> chunks[i] != chunks[j]
    }

    ghost function View(): State
      reads this, chunks
    {
      State(Views(chunks), currentChunk, checkpoints, currentCheckpointId, bytesUsed, allocationCount, chunkCount)
    }

    constructor (chunk: Chunk)
      ensures Valid() && chunks == [chunk]
      ensures View() == NewState(chunk.View())
    {
      chunks, currentChunk, checkpoints, currentCheckpointId := [chunk], 0, [], 0;
      bytesUsed, allocationCount, chunkCount := 0, 0, 1;
    }

    /** Bump one chunk; the others stay as they are. */
    method Bump(index: nat, layout: Layout, spurious: nat) returns (start: Option<nat>)
      requires Valid() && index < |chunks| && layout.align > 0
      modifies chunks[index]
      ensures start == old(Views(chunks))[index].Fit(layout)
      ensures Views(chunks) ==
                if start.None? then old(Views(chunks))
                else old(Views(chunks))[index := old(Views(chunks))[index].(used := start.value + layout.size)]
    {
      start := chunks[index].Allocate(layout, spurious);
      assert forall i :: 0 <= i < |chunks| && i != index ==> Views(chunks)[i] == old(Views(chunks))[i];
    }

    /** `ArenaInner::allocate`. */
    method Allocate(layout: Layout, spurious: nat) returns (place: Option<Place>)
      requires Valid() && layout.align > 0
      modifies this, chunks
      ensures Valid() && chunks == old(chunks)
      ensures (View(), place) == InnerAllocate(old(View()), layout)
    {
      var index := if currentChunk >= |chunks| then |chunks| - 1 else currentChunk;
      var start := Bump(index, layout, spurious);
      if start.Some? {
        ghost var views := Views(chunks);
        bytesUsed := bytesUsed + layout.size;
        allocationCount := allocationCount + 1;
        assert Views(chunks) == views;
        place := Some(Place(index, start.value));
      } else {
        place := None;
      }
    }

    /** `ArenaInner::add_chunk`. */
    method AddChunk(capacity: nat, memory: bool) returns (ok: bool)
      requires Valid()
      modifies this
      ensures Valid() && (forall i :: 0 <= i < |chunks| ==> chunks[i] in old(chunks) || fresh(chunks[i]))
      ensures ok == NewChunk(capacity, memory).Some?
      ensures View() == if ok then ArenaState.AddChunk(old(View()), NewChunk(capacity, memory).value) else old(View())
    {
      var chunk := Chunk.Create(capacity, memory);
      ok := chunk.Some?;
      if ok {
        var index := |chunks|;
        chunks := chunks + [chunk.value];
        currentChunk := index;
        chunkCount := |chunks|;
        assert View().chunks == old(View()).chunks + [chunk.value.View()];
      }
    }

    /** `ArenaInner::checkpoint`. */
    method TakeCheckpoint() returns (cp: Checkpoint)
      requires Valid()
      modifies this
      ensures Valid() && chunks == old(chunks)
      ensures cp == CheckpointOf(old(View())) && View() == Taken(old(View()))
    {
      var index := if currentChunk >= |chunks| then |chunks| - 1 else currentChunk;
      cp := Checkpoint(index, chunks[index].used, currentCheckpointId, allocationCount);
      currentCheckpointId := currentCheckpointId + 1;
    }

    method PushCheckpoint() returns (cp: Checkpoint)
      requires Valid()
      modifies this
      ensures Valid() && chunks == old(chunks)
      ensures cp == CheckpointOf(old(View())) && View() == Pushed(old(View()))
    {
      cp := TakeCheckpoint();
      checkpoints := checkpoints + [cp];
    }

    /** The chunk loop of `rewind_to_checkpoint`. */
    method RewindChunkLoop(index: nat, offset: nat)
      requires Valid()
      modifies chunks
      ensures View() == old(View()).(chunks := RewindChunks(old(View()).chunks, index, offset))
    {
      ghost var before := View().chunks;
      for i := 0 to |chunks|
        invariant forall j :: i <= j < |chunks| ==> chunks[j].View() == before[j]
        invariant forall j :: 0 <= j < i ==> chunks[j].View() == RewindChunks(before, index, offset)[j]
      {
        if i == index {
          chunks[i].SetUsed(offset);
        } else if i > index {
          chunks[i].SetUsed(0);
        }
      }
      assert View().chunks == RewindChunks(before, index, offset);
    }

    /** `Vec::retain` on the checkpoint stack. */
    method RetainOlder(id: nat)
      requires Valid()
      modifies this
      ensures Valid() && chunks == old(chunks)
      ensures View() == old(View()).(checkpoints := Retain(old(checkpoints), id))
    {
      var kept := [];
      for i := 0 to |checkpoints|
        invariant kept == Retain(checkpoints[..i], id)
      {
        assert checkpoints[..i + 1][..i] == checkpoints[..i];
        if checkpoints[i].id < id {
          kept := kept + [checkpoints[i]];
        }
      }
      assert checkpoints[..|checkpoints|] == checkpoints;
      checkpoints := kept;
    }

    /** The sum recomputed after a rewind. */
    method SumUsedUpTo(n: nat) returns (sum: nat)
      requires Valid() && n <= |chunks|
      ensures sum == SumUsed(View().chunks[..n])
    {
      sum := 0;
      for i := 0 to n
        invariant sum == SumUsed(View().chunks[..i])
      {
        assert View().chunks[..i + 1][..i] == View().chunks[..i];
        sum := sum + chunks[i].used;
      }
    }

    /** The statistics part of `rewind_to_checkpoint`. */
    method Recount(cp: Checkpoint)
      requires Valid() && cp.chunkIndex < |chunks|
      modifies this
      ensures Valid() && chunks == old(chunks)
      ensures View() == old(View()).(bytesUsed := SumUsed(old(View()).chunks[..cp.chunkIndex + 1]),
                                     allocationCount := cp.allocationCount)
    {
      var sum := SumUsedUpTo(cp.chunkIndex + 1);
      bytesUsed, allocationCount := sum, cp.allocationCount;
    }

    /** `rewind_to_checkpoint`; `false` when one of its assertions fails. */
    method RewindToCheckpoint(cp: Checkpoint) returns (ok: bool)
      requires Valid()
      modifies this, chunks
      ensures Valid() && chunks == old(chunks)
      ensures ok == Rewindable(old(View()), cp)
      ensures View() == if ok then RewindTo(old(View()), cp) else old(View())
    {
      if cp.chunkIndex >= |chunks| || cp.chunkOffset > chunks[cp.chunkIndex].capacity {
        return false;
      }
      currentChunk := cp.chunkIndex;
      RewindChunkLoop(cp.chunkIndex, cp.chunkOffset);
      RetainOlder(cp.id);
      Recount(cp);
      ok := true;
    }

    /** `pop_and_rewind`; `false` when it panics, the top entry already popped. */
    method PopAndRewind() returns (ok: bool)
      requires Valid()
      modifies this, chunks
      ensures Valid() && chunks == old(chunks)
      ensures ok == ArenaState.PopAndRewind(old(View())).Some?
      ensures ok ==> View() == ArenaState.PopAndRewind(old(View())).value
      ensures !ok ==> View() == old(View()).(checkpoints :=
                if old(checkpoints) == [] then [] else old(checkpoints)[..|old(checkpoints)| - 1])
    {
      if checkpoints == [] {
        return false;
      }
      var cp := checkpoints[|checkpoints| - 1];
      checkpoints := checkpoints[..|checkpoints| - 1];
      ok := RewindToCheckpoint(cp);
    }

    /** `Arena::reset`: every chunk emptied, the ids go on. */
    method Reset()
      requires Valid()
      modifies this, chunks
      ensures Valid() && chunks == old(chunks)
      ensures View() == ResetState(old(View()))
    {
      RewindChunkLoop(0, 0);
      currentChunk := 0;
      bytesUsed, allocationCount := 0, 0;
      checkpoints := [];
    }

    /** `reset_and_shrink_to_fit`: all but the first chunk dropped. */
    method ResetAndShrink()
      requires Valid()
      modifies this, chunks
      ensures Valid() && chunks == old(chunks)[..1]
      ensures View() == ShrunkState(old(View()))
    {
      if |chunks| > 1 {
        chunks := chunks[..1];
      }
      chunks[0].SetUsed(0);
      currentChunk := 0;
      checkpoints := [];
      bytesUsed, allocationCount := 0, 0;
      chunkCount := |chunks|;
      assert View().chunks == ShrunkState(old(View())).chunks;
    }

    method ClearCheckpoints()
      requires Valid()
      modifies this
      ensures Valid() && chunks == old(chunks)
      ensures View() == Cleared(old(View()))
    {
      checkpoints := [];
    }

    /** `Arena::allocate_raw` with the default features. */
    method AllocateRaw(layout: Layout, memory: bool, spurious: nat) returns (out: Outcome)
      requires Valid() && layout.align > 0
      modifies this, chunks
      ensures Valid() && (forall i :: 0 <= i < |chunks| ==> chunks[i] in old(chunks) || fresh(chunks[i]))
      ensures (View(), out) == ArenaState.AllocateRaw(old(View()), layout, memory)
    {
      if layout.size == 0 {
        allocationCount := allocationCount + 1;
        return ZeroSized;
      }
      var place := Allocate(layout, spurious);
      if place.Some? {
        return Granted(place.value, None);
      }
      var capacity := NextChunkCapacity(layout.size);
      var ok := AddChunk(capacity, memory);
      if !ok {
        return Aborted;
      }
      place := Allocate(layout, spurious);
      out := if place.Some? then Granted(place.value, Some(NewChunk(capacity, memory).value.capacity)) else Aborted;
    }
  }
}
