/** Reserved address space committed page by page, and the bump chunk on top of
    it.  The operating system is a step that either succeeds and changes the set
    of accessible pages, or fails and leaves it alone. */
module VirtualMemory {
  import opened Alignment
  import opened Options

  const PAGE_SIZE: nat := 4096
  const MAX_RESERVE_SIZE: nat := 0x1_0000_0000
  const DEFAULT_COMMIT_SIZE: nat := 64 * 1024
  const WORD: nat := 0x1_0000_0000_0000_0000

  /** `pages` are the page numbers the process may touch. */
  datatype Region = Region(reserved: nat, committed: nat, pages: set<nat>)

  datatype VChunk = VChunk(region: Region, capacity: nat, used: nat)

  /** `(v + PAGE_SIZE - 1) & !(PAGE_SIZE - 1)` on a `usize`. */
  function RoundUp(v: nat): nat {
    if v + PAGE_SIZE - 1 < WORD then AlignUp(v, PAGE_SIZE) else 0
  }

  /** The pages of a page-aligned byte range. */
  function Pages(lo: nat, hi: nat): set<nat> {
    set p: nat | p < hi / PAGE_SIZE && AtOrAfter(p, lo)
  }

  predicate AtOrAfter(page: nat, lo: nat) { lo / PAGE_SIZE <= page }

  function Max(a: nat, b: nat): nat { if a < b then b else a }
  function Min(a: nat, b: nat): nat { if a < b then a else b }

  // ----- region -----

  function NewRegion(size: nat, osOk: bool): Option<Region> {
    if size == 0 || !osOk then None
    else Some(Region(RoundUp(Min(Max(size, PAGE_SIZE), MAX_RESERVE_SIZE)), 0, {}))
  }

  /** The result says whether `commit` returned `Ok`. */
  function Commit(r: Region, offset: nat, size: nat, osOk: bool): (Region, bool) {
    var o := RoundUp(offset);
    var end := o + RoundUp(size);
    if size == 0 then (r, true)
    else if end > r.reserved || !osOk then (r, false)
    else (r.(committed := Max(r.committed, end), pages := r.pages + Pages(o, end)), true)
  }

  function Decommit(r: Region, offset: nat, size: nat, osOk: bool): (Region, bool) {
    var o := RoundUp(offset);
    var end := o + RoundUp(size);
    if size == 0 then (r, true)
    else if offset >= r.reserved || end > r.committed || !osOk then (r, false)
    else (r.(committed := if end == r.committed then o else r.committed, pages := r.pages - Pages(o, end)), true)
  }

  /** The outcome of the decommit is ignored. */
  function ResetRegion(r: Region, osOk: bool): Region {
    if r.committed > 0 then Decommit(r, 0, r.committed, osOk).0.(committed := 0) else r
  }

  // ----- chunk -----

  function NewVChunk(capacity: nat, reserveOk: bool, commitOk: bool): Option<VChunk> {
    match NewRegion(capacity, reserveOk)
    case None => None
    case Some(r) =>
      var (r', ok) := Commit(r, 0, Min(capacity, DEFAULT_COMMIT_SIZE), commitOk);
      if ok then Some(VChunk(r', capacity, 0)) else None
  }

  /** Commit from the mark up to `end`, if it is not committed yet. */
  function Ensure(r: Region, end: nat, commitOk: bool): (Region, bool) {
    if end > r.committed then Commit(r, r.committed, end - r.committed, commitOk) else (r, true)
  }

  /** `casOk` is false when the weak exchange fails spuriously. */
  function Allocate(c: VChunk, layout: Layout, commitOk: bool, casOk: bool): (VChunk, Option<nat>)
    requires layout.align > 0
  {
    var start := AlignUp(c.used, layout.align);
    var end := start + layout.size;
    if end > c.capacity then (c, None)
    else
      var (r, ok) := Ensure(c.region, end, commitOk);
      if !ok then (c, None)
      else if casOk then (c.(region := r, used := end), Some(start))
      else (c.(region := r), None)
  }

  function ResetVChunk(c: VChunk, osOk: bool): VChunk {
    c.(used := 0, region := ResetRegion(c.region, osOk))
  }

  // ----- rounding to pages -----

  lemma WordIsPow2()
    ensures WORD == Pow2(WORD_BITS) && Pow2(12) == PAGE_SIZE
  {
    WordValue();
  }

  /** The branch in `RoundUp` is what the mask expression computes. */
  lemma RoundUpIsMask(v: nat)
    requires v < WORD
    ensures 0 < PAGE_SIZE <= Pow2(WORD_BITS)
    ensures RoundUp(v) == MaskAlign(v, PAGE_SIZE, WORD_BITS)
  {
    WordIsPow2();
    MaskIsAlignUpIffNoWrap(v, 12, WORD_BITS);
  }

  predicate Aligned(v: nat) { v % PAGE_SIZE == 0 }

  lemma RoundUpMeaning(v: nat)
    ensures Aligned(RoundUp(v))
    ensures v + PAGE_SIZE - 1 < WORD ==> v <= RoundUp(v) < v + PAGE_SIZE
    ensures v < WORD && Aligned(v) ==> RoundUp(v) == v
  {
    if Aligned(v) {
      AlignUpOfMultiple(v, PAGE_SIZE);
    }
  }

  /** Growing an aligned mark to cover `end` is rounding `end` itself. */
  lemma GrowsTo(committed: nat, end: nat)
    requires Aligned(committed) && committed < end && end + PAGE_SIZE - 1 < WORD
    ensures RoundUp(committed) == committed
    ensures committed + RoundUp(end - committed) == AlignUp(end, PAGE_SIZE)
  {
    RoundUpMeaning(committed);
    var grown := committed + AlignUp(end - committed, PAGE_SIZE);
    assert Aligned(grown);
    AlignUpIsLeast(end, PAGE_SIZE, grown);
    if AlignUp(end, PAGE_SIZE) < grown {
      NoCloserMultiple(AlignUp(end, PAGE_SIZE), grown, PAGE_SIZE);
    }
  }

  /** For every valid layout the end of a block and its rounding to a page stay
      inside the word, wherever the bump pointer is in a reservation. */
  lemma EndNeverWraps(used: nat, layout: Layout)
    requires layout.Valid() && used <= MAX_RESERVE_SIZE
    ensures layout.align > 0 && AlignUp(used, layout.align) + layout.size + PAGE_SIZE - 1 < WORD
  {
    var k: nat :| layout.align == Pow2(k);
    WordValue();
    if k > WORD_BITS {
      Pow2Grows(WORD_BITS, k);
    }
    Pow2Divides(k, 63);
    NoCloserMultiple(AlignUp(layout.size, layout.align), Pow2(63), layout.align);
  }

  // ----- region invariant -----

  /** Committed memory is page-aligned, inside the reservation and accessible. */
  ghost predicate Solid(r: Region) {
    && Aligned(r.reserved) && PAGE_SIZE <= r.reserved <= MAX_RESERVE_SIZE
    && Aligned(r.committed) && r.committed <= r.reserved
    && Pages(0, r.committed) <= r.pages <= Pages(0, r.reserved)
  }

  /** A new region reserves the least number of whole pages that holds the
      request, or 4 GiB for anything larger. */
  lemma ReserveSize(size: nat)
    requires size > 0
    ensures NewRegion(size, true).Some?
    ensures var n := NewRegion(size, true).value.reserved;
            && (size <= MAX_RESERVE_SIZE ==> LeastFrom(n, size, PAGE_SIZE))
            && (size > MAX_RESERVE_SIZE ==> n == MAX_RESERVE_SIZE)
            && Aligned(n) && PAGE_SIZE <= n <= MAX_RESERVE_SIZE
  {
    var clamped := Min(Max(size, PAGE_SIZE), MAX_RESERVE_SIZE);
    RoundUpMeaning(clamped);
    AlignUpMonotone(clamped, MAX_RESERVE_SIZE, PAGE_SIZE);
    RoundUpMeaning(MAX_RESERVE_SIZE);
    AlignUpLeastFrom(size, PAGE_SIZE);
    if size < PAGE_SIZE {
      AlignUpIsLeast(size, PAGE_SIZE, PAGE_SIZE);
      NoCloserMultiple(0, AlignUp(size, PAGE_SIZE), PAGE_SIZE);
    }
  }

  lemma NewRegionIsSolid(size: nat, osOk: bool)
    ensures NewRegion(size, osOk).Some? <==> size > 0 && osOk
    ensures NewRegion(size, osOk).Some? ==>
              var r := NewRegion(size, osOk).value;
              && Solid(r) && r.committed == 0 && r.pages == {} && Min(size, MAX_RESERVE_SIZE) <= r.reserved
              && (size <= MAX_RESERVE_SIZE ==> LeastFrom(r.reserved, size, PAGE_SIZE))
              && (size > MAX_RESERVE_SIZE ==> r.reserved == MAX_RESERVE_SIZE)
  {
    if size > 0 && osOk {
      ReserveSize(size);
      var r := NewRegion(size, osOk).value;
      assert r.committed == 0 && r.pages == {};
      assert Pages(0, 0) == {};
    }
  }

  /** A page lies in the bytes `lo .. hi`. */
  predicate PageWithin(p: nat, lo: nat, hi: nat) { lo <= p * PAGE_SIZE < hi }

  lemma PagesWithin(p: nat, lo: nat, hi: nat)
    requires Aligned(lo) && Aligned(hi)
    ensures p in Pages(lo, hi) <==> PageWithin(p, lo, hi)
  {
    assert lo == lo / PAGE_SIZE * PAGE_SIZE && hi == hi / PAGE_SIZE * PAGE_SIZE;
  }

  /** `o` and `n` are the offset and the size of a call in whole pages. */
  ghost predicate InPages(offset: nat, size: nat, o: nat, n: nat) {
    && offset + PAGE_SIZE <= WORD && size + PAGE_SIZE <= WORD
    && LeastFrom(o, offset, PAGE_SIZE) && LeastFrom(n, size, PAGE_SIZE)
  }

  lemma InPagesRounds(offset: nat, size: nat, o: nat, n: nat)
    requires InPages(offset, size, o, n)
    ensures RoundUp(offset) == o && RoundUp(size) == n && Aligned(o) && Aligned(n) && Aligned(o + n)
  {
    AlignUpLeastFrom(offset, PAGE_SIZE);
    AlignUpLeastFrom(size, PAGE_SIZE);
    assert MultipleFrom(AlignUp(offset, PAGE_SIZE), offset, PAGE_SIZE);
    assert MultipleFrom(AlignUp(size, PAGE_SIZE), size, PAGE_SIZE);
  }

  /** Exactly when a commit succeeds, and what it makes accessible. */
  lemma CommitMeaning(r: Region, offset: nat, size: nat, o: nat, n: nat, osOk: bool)
    requires size > 0 && InPages(offset, size, o, n)
    ensures var (r', ok) := Commit(r, offset, size, osOk);
            && (ok <==> osOk && o + n <= r.reserved)
            && (!ok ==> r' == r)
            && (ok ==>
                  && r'.reserved == r.reserved
                  && r'.committed >= r.committed && r'.committed >= o + n && r'.committed in {r.committed, o + n}
                  && forall p: nat :: p in r'.pages <==> p in r.pages || PageWithin(p, o, o + n))
  {
    InPagesRounds(offset, size, o, n);
    var end := o + n;
    forall p: nat ensures p in Pages(o, end) <==> PageWithin(p, o, end) {
      PagesWithin(p, o, end);
    }
  }

  /** Exactly when a decommit succeeds, and what it takes away: the mark moves
      down only when the range ends at it. */
  lemma DecommitMeaning(r: Region, offset: nat, size: nat, o: nat, n: nat, osOk: bool)
    requires size > 0 && InPages(offset, size, o, n)
    ensures var (r', ok) := Decommit(r, offset, size, osOk);
            && (ok <==> osOk && offset < r.reserved && o + n <= r.committed)
            && (!ok ==> r' == r)
            && (ok ==>
                  && r'.reserved == r.reserved
                  && (o + n < r.committed ==> r'.committed == r.committed)
                  && (o + n == r.committed ==> r'.committed == o)
                  && forall p: nat :: p in r'.pages <==> p in r.pages && !PageWithin(p, o, o + n))
  {
    InPagesRounds(offset, size, o, n);
    var end := o + n;
    forall p: nat ensures p in Pages(o, end) <==> PageWithin(p, o, end) {
      PagesWithin(p, o, end);
    }
  }

  /** Any caller may commit any range: committed memory stays accessible exactly
      when the pages skipped between the old mark and the range already are. */
  lemma CommitKeepsSolidIff(r: Region, offset: nat, size: nat)
    requires Solid(r) && size > 0 && Commit(r, offset, size, true).1
    ensures Solid(Commit(r, offset, size, true).0) <==> Pages(r.committed, RoundUp(offset)) <= r.pages
  {
    RoundUpMeaning(offset);
    RoundUpMeaning(size);
    CommitFrom(r, RoundUp(offset), RoundUp(size), Commit(r, offset, size, true).0);
  }

  lemma CommitFrom(r: Region, o: nat, n: nat, r': Region)
    requires Solid(r) && Aligned(o) && Aligned(n) && o + n <= r.reserved
    requires r' == Region(r.reserved, Max(r.committed, o + n), r.pages + Pages(o, o + n))
    ensures Solid(r') <==> Pages(r.committed, o) <= r.pages
  {
    if Solid(r') {
      forall p | p in Pages(r.committed, o) ensures p in r.pages {
        assert p in Pages(0, r'.committed);
      }
    }
    if Pages(r.committed, o) <= r.pages {
      forall p | p in Pages(0, r'.committed) ensures p in r'.pages {
        assert p in Pages(0, r.committed) || p in Pages(r.committed, o) || p in Pages(o, o + n);
      }
    }
  }

  lemma FirstPage(lo: nat, n: nat, hi: nat)
    requires Aligned(lo) && Aligned(n) && 0 < n && lo + n <= hi && Aligned(hi)
    ensures lo / PAGE_SIZE in Pages(lo, lo + n) && lo / PAGE_SIZE in Pages(0, hi)
  {
  }

  lemma PagesBelow(lo: nat, hi: nat, p: nat)
    requires Aligned(lo) && Aligned(hi) && lo <= hi && p in Pages(0, lo)
    ensures p in Pages(0, hi) && p !in Pages(lo, hi)
  {
  }

  lemma HoleIsNotSolid(r: Region, o: nat, n: nat)
    requires Aligned(o) && Aligned(n) && 0 < n && o + n <= r.committed && Aligned(r.committed)
    ensures !(Pages(0, r.committed) <= r.pages - Pages(o, o + n))
  {
    FirstPage(o, n, r.committed);
  }

  lemma TailIsSolid(r: Region, o: nat, n: nat)
    requires Aligned(o) && Aligned(n) && Pages(0, o + n) <= r.pages
    ensures Pages(0, o) <= r.pages - Pages(o, o + n)
  {
    forall p | p in Pages(0, o) ensures p in r.pages - Pages(o, o + n) {
      PagesBelow(o, o + n, p);
    }
  }

  /** A decommit keeps committed memory accessible exactly when it ends at the
      mark (or covers no page); one in the middle leaves a hole below it. */
  lemma DecommitKeepsSolidIff(r: Region, offset: nat, size: nat)
    requires Solid(r) && size > 0 && Decommit(r, offset, size, true).1
    ensures Solid(Decommit(r, offset, size, true).0) <==>
              RoundUp(offset) + RoundUp(size) == r.committed || RoundUp(size) == 0
  {
    var o, n := RoundUp(offset), RoundUp(size);
    RoundUpMeaning(offset);
    RoundUpMeaning(size);
    DecommitFrom(r, o, n, Decommit(r, offset, size, true).0);
  }

  lemma DecommitFrom(r: Region, o: nat, n: nat, r': Region)
    requires Solid(r) && Aligned(o) && Aligned(n) && o + n <= r.committed
    requires r' == Region(r.reserved, if o + n == r.committed then o else r.committed, r.pages - Pages(o, o + n))
    ensures Solid(r') <==> o + n == r.committed || n == 0
  {
    if n == 0 {
      assert Pages(o, o) == {};
    } else if o + n == r.committed {
      TailIsSolid(r, o, n);
    } else {
      HoleIsNotSolid(r, o, n);
    }
  }

  // ----- direct use of a region -----

  /** Exactly the committed pages are accessible. */
  ghost predicate Tight(r: Region) {
    Solid(r) && r.pages == Pages(0, r.committed)
  }

  datatype RegionOp =
    | CommitOp(offset: nat, size: nat, osOk: bool)
    | DecommitOp(offset: nat, size: nat, osOk: bool)
    | ResetOp(osOk: bool)

  function RegionStep(r: Region, op: RegionOp): (Region, bool) {
    match op
    case CommitOp(offset, size, osOk) => Commit(r, offset, size, osOk)
    case DecommitOp(offset, size, osOk) => Decommit(r, offset, size, osOk)
    case ResetOp(osOk) => (ResetRegion(r, osOk), true)
  }

  /** What a caller can check beforehand: a commit starts at or below the mark,
      and a decommit ends at it. */
  predicate Careful(committed: nat, op: RegionOp) {
    match op
    case CommitOp(offset, size, _) => size == 0 || RoundUp(offset) <= committed
    case DecommitOp(offset, size, _) => size == 0 || RoundUp(size) == 0 || RoundUp(offset) + RoundUp(size) == committed
    case ResetOp(_) => true
  }

  lemma PagesJoin(committed: nat, o: nat, end: nat)
    requires Aligned(committed) && Aligned(o) && Aligned(end) && o <= committed && o <= end
    ensures Pages(0, committed) + Pages(o, end) == Pages(0, Max(committed, end))
  {
    forall p ensures p in Pages(0, committed) + Pages(o, end) <==> p in Pages(0, Max(committed, end)) {
    }
  }

  lemma PagesSplit(o: nat, end: nat)
    requires Aligned(o) && Aligned(end) && o <= end
    ensures Pages(0, end) - Pages(o, end) == Pages(0, o)
  {
    forall p ensures p in Pages(0, end) - Pages(o, end) <==> p in Pages(0, o) {
    }
  }

  lemma CommitWhenTight(r: Region, offset: nat, size: nat)
    requires Tight(r) && size > 0 && Commit(r, offset, size, true).1
    ensures var r' := Commit(r, offset, size, true).0;
            (Solid(r') <==> RoundUp(offset) <= r.committed) && (Solid(r') ==> Tight(r'))
  {
    var o, n := RoundUp(offset), RoundUp(size);
    RoundUpMeaning(offset);
    RoundUpMeaning(size);
    CommitKeepsSolidIff(r, offset, size);
    if o <= r.committed {
      PagesJoin(r.committed, o, o + n);
      assert Pages(r.committed, o) == {};
    } else {
      FirstPage(r.committed, o - r.committed, o);
      assert r.committed / PAGE_SIZE !in Pages(0, r.committed);
    }
  }

  lemma DecommitWhenTight(r: Region, offset: nat, size: nat)
    requires Tight(r) && size > 0 && Decommit(r, offset, size, true).1
    ensures var r' := Decommit(r, offset, size, true).0;
            (Solid(r') <==> Careful(r.committed, DecommitOp(offset, size, true))) && (Solid(r') ==> Tight(r'))
  {
    var o, n := RoundUp(offset), RoundUp(size);
    RoundUpMeaning(offset);
    RoundUpMeaning(size);
    DecommitKeepsSolidIff(r, offset, size);
    if n == 0 {
      assert Pages(o, o) == {};
    } else if o + n == r.committed {
      PagesSplit(o, o + n);
    }
  }

  /** Where exactly the committed pages are accessible, a successful commit or
      decommit keeps committed memory accessible if and only if it was careful. */
  lemma SolidIffCareful(r: Region, op: RegionOp)
    requires Tight(r) && !op.ResetOp? && RegionStep(r, op).1
    ensures Solid(RegionStep(r, op).0) <==> Careful(r.committed, op)
    ensures Careful(r.committed, op) ==> Tight(RegionStep(r, op).0)
  {
    if op.size > 0 {
      if op.CommitOp? {
        CommitWhenTight(r, op.offset, op.size);
      } else {
        DecommitWhenTight(r, op.offset, op.size);
      }
    }
  }

  /** A careful use of a new region; resets succeed. */
  ghost predicate CarefulRun(trace: seq<Region>, ops: seq<RegionOp>) {
    && |trace| == |ops| + 1
    && (exists size: nat :: NewRegion(size, true) == Some(trace[0]))
    && (forall i :: 0 <= i < |ops| ==> trace[i + 1] == RegionStep(trace[i], ops[i]).0)
    && (forall i :: 0 <= i < |ops| ==> Careful(trace[i].committed, ops[i]) && (ops[i].ResetOp? ==> ops[i].osOk))
  }

  lemma CarefulStepIsTight(r: Region, op: RegionOp)
    requires Tight(r) && Careful(r.committed, op) && (op.ResetOp? ==> op.osOk)
    ensures Tight(RegionStep(r, op).0)
  {
    if op.ResetOp? {
      ResetReleases(r, true);
      assert Pages(0, 0) == {};
    } else if RegionStep(r, op).1 {
      SolidIffCareful(r, op);
    }
  }

  /** Every state of a careful run has exactly the committed pages accessible. */
  lemma {:induction false} CarefulRunIsTight(trace: seq<Region>, ops: seq<RegionOp>, i: nat)
    requires CarefulRun(trace, ops) && i < |trace|
    ensures Tight(trace[i])
  {
    if i == 0 {
      var size: nat :| NewRegion(size, true) == Some(trace[0]);
      NewRegionIsSolid(size, true);
      assert Pages(0, 0) == {};
    } else {
      CarefulRunIsTight(trace, ops, i - 1);
      CarefulStepIsTight(trace[i - 1], ops[i - 1]);
    }
  }

  /** Committing the third page first leaves the two below it inaccessible. */
  lemma CommitLeavesAHole()
    ensures NewRegion(65536, true) == Some(Region(65536, 0, {}))
    ensures var (r, ok) := Commit(Region(65536, 0, {}), 8192, 4096, true);
            ok && r.committed == 12288 && 0 !in r.pages && !Solid(r)
  {
    RoundUpMeaning(65536);
    RoundUpMeaning(8192);
    RoundUpMeaning(4096);
    assert 0 in Pages(0, 12288);
  }

  /** Decommitting the first of two pages leaves a hole under the mark. */
  lemma DecommitLeavesAHole()
    ensures var r := Commit(Region(65536, 0, {}), 0, 8192, true).0;
            var (r', ok) := Decommit(r, 0, 4096, true);
            Tight(r) && ok && r'.committed == 8192 && 0 !in r'.pages && !Solid(r')
  {
    RoundUpMeaning(0);
    RoundUpMeaning(8192);
    RoundUpMeaning(4096);
    assert Pages(0, 0) == {} && {} + Pages(0, 8192) == Pages(0, 8192);
    assert 0 in Pages(0, 4096) && 0 in Pages(0, 8192);
  }

  /** A reset leaves nothing committed; if the system call worked, every page
      that was committed is inaccessible. */
  lemma ResetReleases(r: Region, osOk: bool)
    requires Solid(r)
    ensures Solid(ResetRegion(r, osOk)) && ResetRegion(r, osOk).committed == 0
    ensures osOk ==> ResetRegion(r, osOk).pages == r.pages - Pages(0, r.committed)
  {
    RoundUpMeaning(0);
    RoundUpMeaning(r.committed);
    assert Pages(0, 0) == {};
  }

  /** Committing from the mark, as the chunk does: it works exactly when the
      end lies in the reservation and the system agrees, and then moves the
      mark to the first page boundary at or after the end. */
  lemma CommitFromMark(r: Region, end: nat, osOk: bool)
    requires Solid(r) && r.committed < end && end + PAGE_SIZE - 1 < WORD
    ensures var (r', ok) := Commit(r, r.committed, end - r.committed, osOk);
            && Solid(r') && r'.reserved == r.reserved
            && (ok <==> osOk && end <= r.reserved)
            && (ok ==> r'.committed == AlignUp(end, PAGE_SIZE))
            && (!ok ==> r' == r)
  {
    GrowsTo(r.committed, end);
    if end <= r.reserved {
      AlignUpIsLeast(end, PAGE_SIZE, r.reserved);
      if osOk {
        assert Pages(r.committed, r.committed) == {};
        CommitKeepsSolidIff(r, r.committed, end - r.committed);
      }
    }
  }

  lemma EnsureMeaning(r: Region, end: nat, commitOk: bool)
    requires Solid(r) && end + PAGE_SIZE - 1 < WORD
    ensures var (r', ok) := Ensure(r, end, commitOk);
            && Solid(r') && r'.reserved == r.reserved
            && (ok <==> end <= r.committed || (commitOk && end <= r.reserved))
            && r'.committed == if ok then Max(r.committed, AlignUp(end, PAGE_SIZE)) else r.committed
  {
    if end > r.committed {
      CommitFromMark(r, end, commitOk);
    } else {
      AlignUpIsLeast(end, PAGE_SIZE, r.committed);
    }
  }

  // ----- runs of a chunk -----

  datatype Block = Block(start: nat, layout: Layout)

  /** A chunk with the blocks handed out since the last reset, in order. */
  datatype Run = Run(chunk: VChunk, live: seq<Block>)

  datatype Action = Alloc(layout: Layout, commitOk: bool, casOk: bool) | Reset(osOk: bool)

  ghost predicate Allowed(a: Action) { a.Alloc? ==> a.layout.Valid() }

  function Step(r: Run, a: Action): Run
    requires a.Alloc? ==> a.layout.align > 0
  {
    match a
    case Alloc(layout, commitOk, casOk) =>
      var (c, at) := Allocate(r.chunk, layout, commitOk, casOk);
      Run(c, if at.Some? then r.live + [Block(at.value, layout)] else r.live)
    case Reset(osOk) => Run(ResetVChunk(r.chunk, osOk), [])
  }

  ghost predicate Inv(r: Run) {
    && Solid(r.chunk.region)
    && r.chunk.used <= r.chunk.region.committed
    && r.chunk.used <= r.chunk.capacity
    && (forall i :: 0 <= i < |r.live| ==> Placed(r.live[i], r.chunk.used))
    && (forall i, j :: 0 <= i < j < |r.live| ==> r.live[i].start + r.live[i].layout.size <= r.live[j].start)
  }

  predicate Placed(b: Block, used: nat) {
    b.layout.align > 0 && b.start % b.layout.align == 0 && b.start + b.layout.size <= used
  }

  /** A chunk can be made exactly when both system calls work; its first 64 KiB
      (or all of it) are committed. */
  lemma NewVChunkKeepsInv(capacity: nat, reserveOk: bool, commitOk: bool)
    ensures NewVChunk(capacity, reserveOk, commitOk).Some? <==> capacity > 0 && reserveOk && commitOk
    ensures NewVChunk(capacity, reserveOk, commitOk).Some? ==>
              var c := NewVChunk(capacity, reserveOk, commitOk).value;
              Inv(Run(c, [])) && c.capacity == capacity && c.used == 0
              && c.region.committed == AlignUp(Min(capacity, DEFAULT_COMMIT_SIZE), PAGE_SIZE)
  {
    NewRegionIsSolid(capacity, reserveOk);
    if capacity > 0 && reserveOk {
      CommitFromMark(NewRegion(capacity, true).value, Min(capacity, DEFAULT_COMMIT_SIZE), commitOk);
    }
  }

  /** Exactly when an allocation succeeds, where it lands, and how far it moves
      the committed mark: never past the page that holds the end of the block. */
  lemma AllocateMeaning(r: Run, layout: Layout, commitOk: bool, casOk: bool)
    requires Inv(r) && layout.Valid()
    ensures layout.align > 0
    ensures var start := AlignUp(r.chunk.used, layout.align);
            var end := start + layout.size;
            var committed := r.chunk.region.committed;
            var (c, at) := Allocate(r.chunk, layout, commitOk, casOk);
            var room := end <= r.chunk.capacity && (end <= committed || (commitOk && end <= r.chunk.region.reserved));
            && (at.Some? <==> room && casOk)
            && (at.Some? ==> at.value == start && c.used == end)
            && (at.None? ==> c.used == r.chunk.used)
            && Solid(c.region)
            && c.capacity == r.chunk.capacity && c.region.reserved == r.chunk.region.reserved
            && c.region.committed == (if room then Max(committed, AlignUp(end, PAGE_SIZE)) else committed)
  {
    EndNeverWraps(r.chunk.used, layout);
    EnsureMeaning(r.chunk.region, AlignUp(r.chunk.used, layout.align) + layout.size, commitOk);
  }

  lemma StepKeepsInv(r: Run, a: Action)
    requires Inv(r) && Allowed(a)
    ensures a.Alloc? ==> a.layout.align > 0
    ensures Inv(Step(r, a))
    ensures Step(r, a).chunk.capacity == r.chunk.capacity
  {
    match a
    case Alloc(layout, commitOk, casOk) => AllocateMeaning(r, layout, commitOk, casOk);
    case Reset(osOk) => ResetReleases(r.chunk.region, osOk);
  }

  /** A run: a new chunk, then any actions, with any answers of the system. */
  ghost predicate IsRun(trace: seq<Run>, acts: seq<Action>) {
    && |trace| == |acts| + 1
    && (exists capacity: nat :: NewVChunk(capacity, true, true) == Some(trace[0].chunk))
    && trace[0].live == []
    && forall i :: 0 <= i < |acts| ==> Allowed(acts[i]) && Advances(trace[i], acts[i], trace[i + 1])
  }

  ghost predicate Advances(r: Run, a: Action, r': Run) {
    (a.Alloc? ==> a.layout.align > 0) && r' == Step(r, a)
  }

  lemma {:induction false} RunKeepsInv(trace: seq<Run>, acts: seq<Action>, i: nat)
    requires IsRun(trace, acts) && i < |trace|
    ensures Inv(trace[i])
  {
    if i == 0 {
      var capacity: nat :| NewVChunk(capacity, true, true) == Some(trace[0].chunk);
      NewVChunkKeepsInv(capacity, true, true);
    } else {
      RunKeepsInv(trace, acts, i - 1);
      assert Allowed(acts[i - 1]) && Advances(trace[i - 1], acts[i - 1], trace[i]);
      StepKeepsInv(trace[i - 1], acts[i - 1]);
    }
  }

  predicate Holds(b: Block, byte: nat) { b.start <= byte < b.start + b.layout.size }

  /** What the invariant says of one byte. */
  ghost predicate ByteIsSafe(r: Run, byte: nat) {
    && byte < r.chunk.capacity
    && byte < r.chunk.region.committed
    && byte / PAGE_SIZE in r.chunk.region.pages
  }

  lemma HeldByteIsSafe(r: Run, k: nat, byte: nat)
    requires Inv(r) && k < |r.live| && Holds(r.live[k], byte)
    ensures ByteIsSafe(r, byte)
  {
    assert Placed(r.live[k], r.chunk.used);
    PageOfByte(byte, r.chunk.region.committed);
  }

  lemma PageOfByte(byte: nat, committed: nat)
    requires Aligned(committed) && byte < committed
    ensures byte / PAGE_SIZE in Pages(0, committed)
  {
  }

  /** In every run, whatever the system answers: each byte of each live block
      lies in an accessible, committed page; the blocks are disjoint and inside
      the capacity; and the committed size is page-aligned within the reservation. */
  lemma EveryByteIsCommitted(trace: seq<Run>, acts: seq<Action>, i: nat)
    requires IsRun(trace, acts) && i < |trace|
    ensures var r := trace[i].chunk.region; Aligned(r.committed) && r.committed <= r.reserved
    ensures forall k, byte :: 0 <= k < |trace[i].live| && Holds(trace[i].live[k], byte) ==> ByteIsSafe(trace[i], byte)
    ensures forall j, k, byte :: 0 <= j < k < |trace[i].live| && Holds(trace[i].live[j], byte) ==>
              !Holds(trace[i].live[k], byte)
  {
    RunKeepsInv(trace, acts, i);
    var r := trace[i];
    forall k, byte | 0 <= k < |r.live| && Holds(r.live[k], byte)
      ensures ByteIsSafe(r, byte)
    {
      HeldByteIsSafe(r, k, byte);
    }
  }
}
