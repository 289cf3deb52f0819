/** The region and the chunk as objects whose fields the methods update, proved
    against the functions of VirtualMemory.  Each system call's answer is a
    parameter; the accessible pages are ghost. */
module VirtualMemoryClass {
  import opened Alignment
  import opened VirtualMemory
  import opened Options

  class VirtualMemoryRegion {
    var reserved: nat
    var committed: nat
    ghost var pages: set<nat>

    ghost function View(): Region
      reads this
    {
      Region(reserved, committed, pages)
    }

    /** The region of a reservation that has succeeded. */
    constructor (size: nat)
      requires size > 0
      ensures NewRegion(size, true) == Some(View())
    {
      var clamped := size;
      if clamped < PAGE_SIZE {
        clamped := PAGE_SIZE;
      }
      if clamped > MAX_RESERVE_SIZE {
        clamped := MAX_RESERVE_SIZE;
      }
      reserved := RoundUp(clamped);
      committed := 0;
      pages := {};
    }

    /** `new`: null for a zero size or a failed reservation. */
    static method Reserve(size: nat, osOk: bool) returns (r: VirtualMemoryRegion?)
      ensures r == null <==> NewRegion(size, osOk).None?
      ensures r != null ==> fresh(r) && NewRegion(size, osOk) == Some(r.View())
      ensures r != null && size <= MAX_RESERVE_SIZE ==> LeastFrom(r.reserved, size, PAGE_SIZE)
      ensures r != null && size > MAX_RESERVE_SIZE ==> r.reserved == MAX_RESERVE_SIZE
    {
      NewRegionIsSolid(size, osOk);
      if size == 0 {
        return null;
      }
      if !osOk {
        return null;
      }
      r := new VirtualMemoryRegion(size);
    }

    method CommitRange(offset: nat, size: nat, osOk: bool) returns (ok: bool)
      modifies this
      ensures (View(), ok) == Commit(old(View()), offset, size, osOk)
    {
      if size == 0 {
        return true;
      }
      var o := RoundUp(offset);
      var end := o + RoundUp(size);
      if end > reserved {
        return false;
      }
      if !osOk {
        return false;
      }
      pages := pages + Pages(o, end);
      if committed < end {
        committed := end;
      }
      ok := true;
    }

    method DecommitRange(offset: nat, size: nat, osOk: bool) returns (ok: bool)
      modifies this
      ensures (View(), ok) == Decommit(old(View()), offset, size, osOk)
    {
      if size == 0 {
        return true;
      }
      if offset >= reserved {
        return false;
      }
      var o := RoundUp(offset);
      var end := o + RoundUp(size);
      if end > committed {
        return false;
      }
      if !osOk {
        return false;
      }
      pages := pages - Pages(o, end);
      if end == committed {
        committed := o;
      }
      ok := true;
    }

    method Reset(osOk: bool)
      modifies this
      ensures View() == ResetRegion(old(View()), osOk)
    {
      if committed > 0 {
        var _ := DecommitRange(0, committed, osOk);
        committed := 0;
      }
    }
  }

  class VirtualChunk {
    const region: VirtualMemoryRegion
    const capacity: nat
    var used: nat

    ghost function View(): VChunk
      reads this, region
    {
      VChunk(region.View(), capacity, used)
    }

    /** `new` around a region whose first commit has succeeded. */
    constructor (r: VirtualMemoryRegion, size: nat)
      ensures region == r && View() == VChunk(r.View(), size, 0)
    {
      region := r;
      capacity := size;
      used := 0;
    }

    static method Create(size: nat, reserveOk: bool, commitOk: bool) returns (chunk: VirtualChunk?)
      ensures chunk == null <==> NewVChunk(size, reserveOk, commitOk).None?
      ensures chunk != null ==>
                && fresh(chunk) && fresh(chunk.region)
                && NewVChunk(size, reserveOk, commitOk) == Some(chunk.View())
    {
      var r := VirtualMemoryRegion.Reserve(size, reserveOk);
      if r == null {
        return null;
      }
      var ok := r.CommitRange(0, if size < DEFAULT_COMMIT_SIZE then size else DEFAULT_COMMIT_SIZE, commitOk);
      if !ok {
        return null;
      }
      chunk := new VirtualChunk(r, size);
    }

    method AllocateBlock(layout: Layout, commitOk: bool, casOk: bool) returns (at: Option<nat>)
      requires layout.align > 0
      modifies this, region
      ensures (View(), at) == Allocate(old(View()), layout, commitOk, casOk)
    {
      var start := AlignUp(used, layout.align);
      var end := start + layout.size;
      if end > capacity {
        return None;
      }
      if end > region.committed {
        var ok := region.CommitRange(region.committed, end - region.committed, commitOk);
        if !ok {
          return None;
        }
      }
      if casOk {
        used := end;
        return Some(start);
      }
      at := None;
    }

    method Reset(osOk: bool)
      modifies this, region
      ensures View() == ResetVChunk(old(View()), osOk)
    {
      used := 0;
      region.Reset(osOk);
    }
  }
}
