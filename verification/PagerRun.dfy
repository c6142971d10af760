/** From the boot loader's memory map to a running pager, and any run from there. */
module PagerRun {
  import opened BootMap
  import opened BootPaging
  import opened FreeFrames
  import opened HeapPages
  import opened MemoryInit
  import opened MemoryMap
  import opened PagerOps
  import opened PagerViews
  import opened Paging
  import opened Sweep

  datatype Outcome = TooManyEntries | TooFewFrames | Running

  /** No free memory starts in the last page of the address space. */
  ghost predicate NoFreeStart(es: seq<Entry>) {
    forall x :: x > 0xFFFF_F000 && SeenType(es, x) == FREE ==> SeenType(es, x - 1) == FREE
  }

  /** A page of memory that the kernel takes to be free, all of it. */
  ghost predicate PageFree(es: seq<Entry>, f: int) {
    f >= 0 && f % PAGE == 0 && forall x :: f <= x < f + PAGE ==> SeenType(es, x) == FREE
  }

  /** All those pages. */
  ghost function FreePages(es: seq<Entry>): set<int> {
    set f: int | 0 <= f < 0x1_0000_0000 && PageFree(es, f)
  }

  /** The frames the first two pages of the heap take, and where the kernel's page table ends, a new table. */
  function FramesNeeded(kernelEnd: Word): nat {
    if kernelEnd + INITIAL_HEAP <= 0x40_0000 then 2 else 3
  }

  /** With that many frames the heap can be mapped. */
  lemma HeapNeeds(kernelTable: int, stackTable: int, kernelEnd: nat, free: nat)
    requires kernelEnd <= 0x40_0000 && kernelEnd % 4096 == 0
    ensures var h := (kernelEnd + 0xC000_0000) / 4096;
            CanGrow(free, BootTables(kernelTable, stackTable).Keys, BootLarge(), BootEntries(kernelEnd).Keys, h, h + 1) <==>
              free >= FramesNeeded(kernelEnd)
  {
    var tables, large, mapped := BootTables(kernelTable, stackTable).Keys, BootLarge(), BootEntries(kernelEnd).Keys;
    var h := (kernelEnd + 0xC000_0000) / 4096;
    assert h == KERNEL_PAGE + kernelEnd / 4096;
    assert h / 1024 == KERNEL_TABLE || (h / 1024 == KERNEL_TABLE + 1 && kernelEnd == 0x40_0000);
    assert (h + 1) / 1024 == if kernelEnd + INITIAL_HEAP <= 0x40_0000 then KERNEL_TABLE else KERNEL_TABLE + 1;
    assert kernelEnd == 0x40_0000 ==> h / 1024 == KERNEL_TABLE + 1;
    hide BootTables, BootLarge, BootEntries, CanGrow;
    TablesAre(kernelTable, stackTable, h / 1024);
    TablesAre(kernelTable, stackTable, (h + 1) / 1024);
    LargeAre(h / 1024);
    LargeAre((h + 1) / 1024);
    EntriesAre(kernelEnd, h);
    EntriesAre(kernelEnd, h + 1);
    var need := if h / 1024 in tables then 1 else 2;
    var need' := if (h + 1) / 1024 in tables + {h / 1024} then 1 else 2;
    CanGrowStep(free, tables, large, mapped, h, h + 1);
    if free >= need {
      CanGrowStep(free - need, tables + {h / 1024}, large, mapped, h + 1, h + 1);
      if free - need >= need' {
        CanGrowStep(free - need - need', tables + {h / 1024} + {(h + 1) / 1024}, large, mapped, h + 2, h + 1);
      }
    }
  }

  /** The frames taken are the free pages, each once. */
  lemma TakenCount(es: seq<Entry>, out: seq<Region>)
    requires RegionsOK(out) && Fits(out) && NoHigh(out) && Shows(es, out)
    ensures |FramesFree(out)| == |FreePages(es)|
  {
    hide *;
    var frames := FramesFree(out);
    forall f
      ensures f in frames <==> f in FreePages(es)
    {
      TakenExact(es, out, f);
      FreeInside(es, out, f);
    }
    FramesFreeOnce(out);
    SetOfSeq(frames);
    assert (set f | f in frames) == FreePages(es);
  }

  lemma FreeInside(es: seq<Entry>, out: seq<Region>, f: int)
    requires RegionsOK(out) && Fits(out) && Shows(es, out)
    ensures f in FreePages(es) <==> PageFree(es, f)
  {
    hide OutType, SeenType, RegionsOK;
    if PageFree(es, f) {
      assert OutType(out, f) == FREE;
      var k := RegionOf(out, f);
    }
  }

  lemma KernelType(bootmap: seq<Entry>, kernelStart: Word, kernelEnd: Word, x: int)
    requires kernelStart <= x < kernelEnd
    ensures TypeAt(bootmap + [KernelEntry(kernelStart, kernelEnd)], x) == KERNEL
  {
    var es := bootmap + [KernelEntry(kernelStart, kernelEnd)];
    assert es[|es| - 1] == KernelEntry(kernelStart, kernelEnd);
    assert Covers(es[|es| - 1], x);
    TypeBound(es[..|es| - 1], x);
  }

  lemma {:induction false} TypeBound(es: seq<Entry>, x: int)
    ensures TypeAt(es, x) <= KERNEL
  {
    if es != [] {
      TypeBound(es[..|es| - 1], x);
    }
  }

  /** The regions end before the last byte. */
  lemma RegionsFit(es: seq<Entry>, out: seq<Region>)
    requires RegionsOK(out) && Shows(es, out)
    ensures Fits(out)
  {
    hide OutType, SeenType;
    forall k | 0 <= k < |out|
      ensures Finish(out[k]) <= TOP
    {
      var x := Finish(out[k]) - 1;
      TypeOf(out, k, x);
      assert OutType(out, x) == SeenType(es, x);
      if x >= TOP {
        SeenAtTop(es, x);
      }
    }
  }

  /** The frames that are taken, in terms of the boot loader's map. */
  lemma TakenExact(es: seq<Entry>, out: seq<Region>, f: int)
    requires RegionsOK(out) && Fits(out) && NoHigh(out) && Shows(es, out)
    ensures f in FramesFree(out) <==> PageFree(es, f)
  {
    hide OutType, SeenType, FramesFree;
    FramesFreeExact(out, f);
    if f in FramesFree(out) {
      assert OutType(out, f) == FREE;
      var k := RegionOf(out, f);
      forall x | f <= x < f + PAGE
        ensures SeenType(es, x) == FREE
      {
        assert OutType(out, x) == FREE;
      }
    }
    if PageFree(es, f) {
      forall x | f <= x < f + PAGE
        ensures OutType(out, x) == FREE
      {
      }
    }
  }

  /** The kernel's frames are not taken. */
  lemma KernelUnused(p: Pager, bootmap: seq<Entry>, kernelStart: Word, kernelEnd: Word, out: seq<Region>)
    requires kernelStart < kernelEnd && p.image == p.entries.Keys
    requires var es := bootmap + [KernelEntry(kernelStart, kernelEnd)];
             RegionsOK(out) && Fits(out) && NoHigh(out) && Shows(es, out)
    requires kernelStart <= p.pd < kernelEnd && forall t :: t in p.tables ==> kernelStart <= p.tables[t] < kernelEnd
    ensures forall f :: f in FramesFree(out) ==> Unused(p, f)
  {
    hide RegionsOK, Fits, NoHigh, Shows, SeenType, FramesFree;
    var es := bootmap + [KernelEntry(kernelStart, kernelEnd)];
    forall f | f in FramesFree(out)
      ensures Unused(p, f)
    {
      TakenExact(es, out, f);
      assert SeenType(es, f) == FREE;
      if kernelStart <= f < kernelEnd {
        KernelType(bootmap, kernelStart, kernelEnd, f);
        SeenBounds(es, f);
      }
      if f in p.tables.Values {
        var t := KeyOf(p.tables, f);
      }
    }
  }

  /** Where the boot code's page directory and tables are: in the kernel, on page boundaries. */
  ghost predicate InKernel(pd: int, kernelTable: int, stackTable: int, kernelStart: int, kernelEnd: int) {
    && kernelStart < kernelEnd <= 0x40_0000 && kernelEnd % 4096 == 0
    && kernelStart <= pd < kernelEnd && kernelStart <= kernelTable < kernelEnd && kernelStart <= stackTable < kernelEnd
  }

  lemma KernelAddresses(pd: int, kernelTable: int, stackTable: int, kernelStart: nat, kernelEnd: nat)
    requires InKernel(pd, kernelTable, stackTable, kernelStart, kernelEnd)
    ensures (kernelEnd + 0xC000_0000) % 4096 == 0 && 0xC000_0000 < kernelEnd + 0xC000_0000 <= 0xC100_0000
    ensures (kernelStart + 0xC000_0000) / 0x40_0000 == KERNEL_TABLE
    ensures kernelStart < kernelEnd
    ensures forall t :: t in BootTables(kernelTable, stackTable) ==>
                          t >= KERNEL_TABLE && kernelStart <= BootTables(kernelTable, stackTable)[t] < kernelEnd
    ensures kernelStart <= pd < kernelEnd && kernelEnd <= 0x40_0000 && kernelEnd % 4096 == 0
    ensures Frames([]) == []
  {
  }

  lemma HoldingsAre(pd: int, tables: map<int, int>, entries: map<int, int>, free: seq<int>)
    ensures forall f :: f in Holdings(pd, tables, entries - entries.Keys, free) <==>
                          f == pd || f in tables.Values || f in free
  {
    assert (set v | v in entries - entries.Keys :: FrameOf((entries - entries.Keys)[v])) == {};
  }

  lemma BootValues(kernelTable: int, stackTable: int)
    ensures BootTables(kernelTable, stackTable).Values == {kernelTable, stackTable}
  {
    var tables := BootTables(kernelTable, stackTable);
    assert tables[KERNEL_TABLE] == kernelTable && tables[STACK_TABLE] == stackTable;
  }

  /** What the boot loader's map comes to. */
  lemma MapUsable(bootmap: seq<Entry>, kernelStart: Word, kernelEnd: Word, out: seq<Region>)
    requires kernelStart < kernelEnd && RegionsOK(out)
    requires var es := bootmap + [KernelEntry(kernelStart, kernelEnd)]; NoFreeStart(es) && Shows(es, out)
    ensures Fits(out) && NoHigh(out)
  {
    hide RegionsOK, Fits, NoHigh, Shows, SeenType;
    var es := bootmap + [KernelEntry(kernelStart, kernelEnd)];
    RegionsFit(es, out);
    NoHighExact(es, out);
  }

  /** A page that the boot loader's map says is free, all of it, and that is not the kernel's. */
  ghost predicate TrulyFree(es: seq<Entry>, f: int) {
    f >= 0 && f % PAGE == 0 && forall x :: f <= x < f + PAGE ==> TypeAt(es, x) == FREE
  }

  /** When the empty entries of the map are harmless, the pages taken to be free are those that are. */
  lemma FreePagesTrue(es: seq<Entry>, f: int)
    requires Harmless(es)
    ensures PageFree(es, f) <==> TrulyFree(es, f)
  {
    hide SeenType, TypeAt, Harmless;
    AllTrue(es);
    if TrulyFree(es, f) {
      forall x | f <= x < f + PAGE
        ensures SeenType(es, x) == FREE
      {
        assert TypeAt(es, x) == FREE;
      }
    }
    if PageFree(es, f) {
      forall x | f <= x < f + PAGE
        ensures TypeAt(es, x) == FREE
      {
        assert SeenType(es, x) == FREE;
      }
    }
  }

  lemma AllTrue(es: seq<Entry>)
    requires Harmless(es)
    ensures forall x :: x >= 0 ==> SeenType(es, x) == TypeAt(es, x)
  {
    hide SeenType, TypeAt, Harmless;
    forall x | x >= 0
      ensures SeenType(es, x) == TypeAt(es, x)
    {
      SeenIsType(es, x);
    }
  }

  /** The start of the system up to memory_init: the pager owns, besides its own three frames, exactly the pages that the
      kernel takes to be free (FreePagesTrue), and the heap is there. */
  method StartMemory(bootmap: seq<Entry>, kernelStart: Word, kernelEnd: Word, m: PhysMem, pd: int,
                     kernelTable: int, stackTable: int) returns (outcome: Outcome, p: Pager)
    requires BootPages(m, pd, kernelTable, stackTable, kernelEnd)
    requires InKernel(pd, kernelTable, stackTable, kernelStart, kernelEnd)
    requires var es := bootmap + [KernelEntry(kernelStart, kernelEnd)]; NoFreeStart(es)
    ensures fresh(p)
    ensures outcome == TooManyEntries <==> KeptCount(bootmap) > 64
    ensures outcome == TooFewFrames <==>
              KeptCount(bootmap) <= 64 &&
              |FreePages(bootmap + [KernelEntry(kernelStart, kernelEnd)])| < FramesNeeded(kernelEnd)
    ensures outcome == Running ==>
              && p.HeapOK() && p.heapAddr == kernelEnd + 0xC000_0000 && p.heapSize == INITIAL_HEAP
              && forall f :: f in p.Account() <==>
                               f == pd || f == kernelTable || f == stackTable
                               || f in FreePages(bootmap + [KernelEntry(kernelStart, kernelEnd)])
  {
    hide *;
    KernelAddresses(pd, kernelTable, stackTable, kernelStart, kernelEnd);
    Limits();
    p := new Pager(m, pd, kernelTable, stackTable, kernelEnd);
    var mmap := new Region[MAX_MAP](i => Region(0, 0, 0));
    var panicked, size := GetMmap(bootmap, kernelStart, kernelEnd, mmap);
    if panicked {
      return TooManyEntries, p;
    }
    var regions := mmap[..size];
    MapUsable(bootmap, kernelStart, kernelEnd, regions);
    KernelUnused(p, bootmap, kernelStart, kernelEnd, regions);
    TakenCount(bootmap + [KernelEntry(kernelStart, kernelEnd)], regions);
    HeapNeeds(kernelTable, stackTable, kernelEnd, |FramesFree(regions)|);
    var ok := Start(p, regions, kernelStart + 0xC000_0000, kernelEnd + 0xC000_0000);
    if !ok {
      return TooFewFrames, p;
    }
    ghost var es := bootmap + [KernelEntry(kernelStart, kernelEnd)];
    HoldingsAre(pd, BootTables(kernelTable, stackTable), BootEntries(kernelEnd), FramesFree(regions));
    BootValues(kernelTable, stackTable);
    forall f
      ensures f in FramesFree(regions) <==> f in FreePages(es)
    {
      TakenExact(es, regions, f);
      FreeInside(es, regions, f);
    }
    outcome := Running;
  }

  /** Where the heap's callback goes wrong: it takes more than the heap has.  It succeeds, the page before the heap is not
      mapped any more, and if it was the kernel's its frame is free for others; the size has wrapped around. */
  method ShrinkTooFar(p: Pager, amount: nat) returns (r: int)
    requires p.HeapOK() && p.heapSize + 4096 <= amount <= 0x8000_0000 && p.CanOvershoot(amount)
    modifies p
    ensures r == 0 && p.heapSize == old(p.heapSize) - amount + 0x1_0000_0000 && !p.HeapOK()
    ensures var page := p.heapAddr / 4096 - 1;
            page !in p.entries && (page in old(p.image) && page in old(p.entries) ==> FrameOf(old(p.entries)[page]) in p.Account())
  {
    hide *;
    p.HeapIs();
    ghost var page, entries, image := p.heapAddr / 4096 - 1, p.entries, p.image;
    BelowHeap(p.heapAddr, p.heapSize, amount);
    r := p.HeapCallback(0 - amount);
    p.HeapIs();
    GivenOne(entries, image, Pages((p.heapAddr + old(p.heapSize) - amount - 1) / 4096, page), page);
  }

  lemma BelowHeap(start: nat, size: nat, amount: nat)
    requires start % 4096 == 0 && 0 < size && size + 4096 <= amount <= start
    ensures start / 4096 - 1 in Pages((start + size - amount - 1) / 4096, start / 4096 - 1)
    ensures start / 4096 - 1 in Pages((start + size - amount - 1) / 4096, (start + size - 1) / 4096)
  {
  }

  lemma GivenOne(entries: map<int, int>, image: set<int>, pages: set<int>, page: int)
    requires page in pages
    ensures page in image && page in entries ==> FrameOf(entries[page]) in Given(entries, image, pages)
  {
  }

  // ----- runs

  /** What happens to pages: the heap's callback, and pages at other addresses. */
  datatype Request = Allocate(page: nat, usermode: bool, writable: bool) | Release(page: nat) | MoveHeap(difference: int)

  /** What the callers keep to: pages below the stack; only pages of their own are given back, and the heap is not made
      smaller by more than it has. */
  predicate Proper(heapAddr: nat, heapSize: nat, image: set<int>, q: Request) {
    match q
    case Allocate(v, _, _) => v < STACK_BOTTOM
    case Release(v) =>
      v < STACK_BOTTOM && v / 4096 !in image && v / 4096 !in Pages(heapAddr / 4096 - 1, (heapAddr + heapSize - 1) / 4096)
    case MoveHeap(d) => -0x8000_0000 <= d < 0x8000_0000 && -d <= heapSize
  }

  lemma ProperCases(heapAddr: nat, heapSize: nat, image: set<int>, q: Request)
    requires Proper(heapAddr, heapSize, image, q)
    ensures !q.MoveHeap? ==> q.page < STACK_BOTTOM
    ensures q.Release? ==>
              q.page / 4096 !in image && q.page / 4096 !in Pages(heapAddr / 4096 - 1, (heapAddr + heapSize - 1) / 4096)
    ensures q.MoveHeap? ==> -0x8000_0000 <= q.difference < 0x8000_0000 && -q.difference <= heapSize
  {
  }

  /** The flags of a page that is allocated. */
  function FlagsOf(usermode: bool, writable: bool): nat {
    PRESENT + (if usermode then USER else 0) + if writable then WRITE else 0
  }

  /** The answer to a request and what it does: when it succeeds, and which frames are free then and in which order, which
      tables and which entries there are. */
  ghost predicate Answers(v: PagerView, q: Request, r: int, v': PagerView) {
    match q
    case Allocate(page, usermode, writable) =>
      && (r == 0 <==> Allocates(v.free, v.tables, v.large, v.entries, page / 4096)) && (r == 0 || r == 1)
      && v' == v.(free := v'.free, tables := v'.tables, entries := v'.entries)
      && (if r == 0
          then AfterAllocate(v.free, v.tables, v.entries, v'.free, v'.tables, v'.entries, page / 4096, FlagsOf(usermode, writable))
          else v' == v)
    case Release(page) =>
      && (r == 0 <==> page / 4096 in v.entries) && (r == 0 || r == 1)
      && v' == if r == 0
               then v.(free := v.free + [FrameOf(v.entries[page / 4096])], entries := v.entries - {page / 4096})
               else v
    case MoveHeap(d) =>
      && (r == 0 <==> if d > 0 then v.CanGrowBy(d) else v.heapSize + d >= INITIAL_HEAP) && (r == 0 || r == -1)
      && v' == v.Moved(d)
      && v' == v.(heapSize := v.heapSize + if r == 0 then d else 0, free := v'.free, tables := v'.tables, entries := v'.entries)
      && (d <= 0 ==> v'.tables == v.tables)
      && (if r != 0 then v'.entries == v.entries
          else if d <= 0 then v'.entries == v.entries - Pages(v'.LastPage(), v.LastPage())
          else Grown(v.entries, v'.entries, v.LastPage(), v'.LastPage())
               && TablesGrown(v.tables, v'.tables, v.LastPage(), v'.LastPage()))
  }

  /** The pages with frames of their own that were mapped before and still are. */
  function Staying(entries: map<int, int>, entries': map<int, int>, image: set<int>): map<int, int> {
    map v | v in entries && v in entries' && v !in image :: entries[v]
  }

  lemma StayingIs(entries: map<int, int>, entries': map<int, int>, image: set<int>, kept: map<int, int>, gone: set<int>,
                  m: PhysMem, m': PhysMem)
    requires PagesKept(m, m', kept) && (kept == entries - image || (entries' == entries - gone && kept == entries' - image))
    ensures PagesKept(m, m', Staying(entries, entries', image))
  {
    PagesKeptSub(m, m', kept, Staying(entries, entries', image));
  }

  lemma NoneGone(entries: map<int, int>)
    ensures entries - {} == entries
  {
  }

  lemma AllocatedKeys(free: seq<int>, tables: map<int, int>, entries: map<int, int>,
                      free': seq<int>, tables': map<int, int>, entries': map<int, int>, page: nat, flags: nat)
    requires AfterAllocate(free, tables, entries, free', tables', entries', page, flags)
    ensures entries.Keys <= entries'.Keys
  {
  }

  method PerformAllocate(p: Pager, page: nat, usermode: bool, writable: bool) returns (r: int)
    requires p.HeapOK() && page < STACK_BOTTOM
    modifies p
    ensures p.HeapOK() && p.Account() == old(p.Account())
    ensures Answers(old(p.View()), Allocate(page, usermode, writable), r, p.View())
    ensures PagesKept(old(p.mem), p.mem, Staying(old(p.entries), p.entries, p.image))
  {
    hide *;
    p.HeapIs();
    p.ViewIs();
    ghost var v := p.View();
    FlagsIs(usermode, writable);
    r := p.MemoryAllocatePage(page, usermode, writable);
    if r == 0 {
      AllocatedKeys(v.free, v.tables, v.entries, Frames(p.stack), p.tables, p.entries, page / 4096, FlagsOf(usermode, writable));
    }
    p.HeapIs();
    p.ViewIs();
    StayingIs(v.entries, p.entries, p.image, v.entries - p.image, {}, old(p.mem), p.mem);
    FoldAllocate(v, page, usermode, writable, r, p.View());
  }

  lemma FlagsIs(usermode: bool, writable: bool)
    ensures FlagsOf(usermode, writable) == PRESENT + (if usermode then USER else 0) + if writable then WRITE else 0
  {
  }

  lemma FoldAllocate(v: PagerView, page: nat, usermode: bool, writable: bool, r: int, v': PagerView)
    requires (r == 0 <==> Allocates(v.free, v.tables, v.large, v.entries, page / 4096)) && (r == 0 || r == 1)
    requires v' == v.(free := v'.free, tables := v'.tables, entries := v'.entries)
    requires r == 0 ==>
               AfterAllocate(v.free, v.tables, v.entries, v'.free, v'.tables, v'.entries, page / 4096, FlagsOf(usermode, writable))
    requires r == 1 ==> v'.free == v.free && v'.tables == v.tables && v'.entries == v.entries
    ensures Answers(v, Allocate(page, usermode, writable), r, v')
  {
  }

  method PerformRelease(p: Pager, page: nat) returns (r: int)
    requires p.HeapOK() && Proper(p.heapAddr, p.heapSize, p.image, Release(page))
    modifies p
    ensures p.HeapOK() && p.Account() == old(p.Account()) && Answers(old(p.View()), Release(page), r, p.View())
    ensures PagesKept(old(p.mem), p.mem, Staying(old(p.entries), p.entries, p.image))
  {
    hide *;
    p.HeapIs();
    p.ViewIs();
    ghost var v := p.View();
    ProperCases(p.heapAddr, p.heapSize, p.image, Release(page));
    r := p.MemoryFreePage(page);
    p.HeapIs();
    p.ViewIs();
    NoneGone(v.entries);
    StayingIs(v.entries, p.entries, p.image, p.entries - p.image, if r == 0 then {page / 4096} else {}, old(p.mem), p.mem);
    FoldRelease(v, page, r, p.View());
  }

  lemma FoldRelease(v: PagerView, page: nat, r: int, v': PagerView)
    requires (r == 0 <==> page / 4096 in v.entries) && (r == 0 || r == 1)
    requires v' == v.(free := v'.free, entries := v'.entries)
    requires r == 0 ==> v'.free == v.free + [FrameOf(v.entries[page / 4096])] && v'.entries == v.entries - {page / 4096}
    requires r == 1 ==> v'.free == v.free && v'.entries == v.entries
    ensures Answers(v, Release(page), r, v')
  {
  }

  method PerformMove(p: Pager, d: int) returns (r: int)
    requires p.HeapOK() && -0x8000_0000 <= d < 0x8000_0000 && -d <= p.heapSize
    modifies p
    ensures p.HeapOK() && p.Account() == old(p.Account()) && Answers(old(p.View()), MoveHeap(d), r, p.View())
    ensures PagesKept(old(p.mem), p.mem, Staying(old(p.entries), p.entries, p.image))
  {
    hide *;
    p.HeapIs();
    p.ViewIs();
    ghost var v := p.View();
    if d < 0 {
      p.OvershootIs(-d);
    }
    p.CanGrowByIs(d);
    r := p.HeapCallback(d);
    p.ViewIs();
    NoneGone(v.entries);
    if d < 0 {
      StayingIs(v.entries, p.entries, p.image, p.entries - p.image,
                if r == 0 then Pages(p.LastPage(), v.LastPage()) else {}, old(p.mem), p.mem);
    } else {
      StayingIs(v.entries, p.entries, p.image, v.entries - p.image, {}, old(p.mem), p.mem);
    }
    FoldMove(v, d, r, p.View());
  }

  lemma FoldMove(v: PagerView, d: int, r: int, v': PagerView)
    requires (r == 0 || r == -1) && v.heapSize >= INITIAL_HEAP
    requires d > 0 ==> (r == 0 <==> v.CanGrowBy(d))
    requires d < 0 ==> (r == 0 <==> v.heapSize + d >= INITIAL_HEAP)
    requires d == 0 ==> r == 0
    requires v' == v.(heapSize := v'.heapSize, free := v'.free, tables := v'.tables, entries := v'.entries)
    requires v'.heapSize == v.heapSize + if r == 0 then d else 0
    requires d <= 0 ==> v'.tables == v.tables
    requires r != 0 ==> v'.entries == v.entries
    requires r == 0 && d <= 0 ==> v'.entries == v.entries - Pages(v'.LastPage(), v.LastPage())
    requires r == 0 && d > 0 ==> Grown(v.entries, v'.entries, v.LastPage(), v'.LastPage())
    requires r == 0 && d > 0 ==> TablesGrown(v.tables, v'.tables, v.LastPage(), v'.LastPage())
    requires v' == v.Moved(d)
    ensures Answers(v, MoveHeap(d), r, v')
  {
  }

  /** One request: its answer and effect.  Pages that stay mapped keep what is in them. */
  method Perform(p: Pager, q: Request) returns (r: int)
    requires p.HeapOK() && Proper(p.heapAddr, p.heapSize, p.image, q)
    modifies p
    ensures p.HeapOK() && p.Account() == old(p.Account()) && Answers(old(p.View()), q, r, p.View())
    ensures PagesKept(old(p.mem), p.mem, Staying(old(p.entries), p.entries, p.image))
  {
    hide *;
    ProperCases(p.heapAddr, p.heapSize, p.image, q);
    match q {
      case Allocate(page, usermode, writable) => r := PerformAllocate(p, page, usermode, writable);
      case Release(page) => r := PerformRelease(p, page);
      case MoveHeap(d) => r := PerformMove(p, d);
    }
  }

  /** Each proper request of the run has its answer and effect; the others do nothing.  The pages and frames are in order at
      each point, no frame is used twice, and the frames free and in use are the same ones from beginning to end. */
  ghost predicate Follows(views: seq<PagerView>, requests: seq<Request>, answers: seq<int>) {
    && |views| == |requests| + 1 && |answers| == |requests|
    && forall k :: 0 <= k < |requests| ==> StepFollows(views[k], requests[k], answers[k], views[k + 1])
  }

  ghost predicate StepFollows(v: PagerView, q: Request, r: int, v': PagerView) {
    && v.Sound() && v'.Sound() && v'.Account() == v.Account()
    && if Proper(v.heapAddr, v.heapSize, v.image, q) then Answers(v, q, r, v') else r == -1 && v' == v
  }

  lemma FollowsNone(v: PagerView)
    ensures Follows([v], [], [])
  {
  }

  lemma FollowsNext(views: seq<PagerView>, requests: seq<Request>, answers: seq<int>, k: nat, r: int, v: PagerView)
    requires k < |requests| && Follows(views, requests[..k], answers) && StepFollows(views[k], requests[k], r, v)
    ensures Follows(views + [v], requests[..k + 1], answers + [r])
  {
    hide StepFollows;
    forall j | 0 <= j < k + 1
      ensures StepFollows((views + [v])[j], requests[..k + 1][j], (answers + [r])[j], (views + [v])[j + 1])
    {
      if j < k {
        assert StepFollows(views[j], requests[..k][j], answers[j], views[j + 1]);
      }
    }
  }

  lemma StepIs(v: PagerView, q: Request, r: int, v': PagerView)
    requires if Proper(v.heapAddr, v.heapSize, v.image, q) then Answers(v, q, r, v') else r == -1 && v' == v
    requires v.Sound() && v'.Sound() && v'.Account() == v.Account()
    ensures StepFollows(v, q, r, v')
  {
  }

  /** Over any run every proper request has its answer and effect, and the frames stay the ones there were at the start,
      each free or in use once. */
  method Run(p: Pager, requests: seq<Request>) returns (answers: seq<int>, ghost views: seq<PagerView>)
    requires p.HeapOK()
    modifies p
    ensures p.HeapOK() && p.Account() == old(p.Account())
    ensures Follows(views, requests, answers) && views[0] == old(p.View()) && views[|requests|] == p.View()
  {
    hide *;
    answers, views := [], [p.View()];
    FollowsNone(p.View());
    assert requests[..0] == [];
    for k := 0 to |requests|
      invariant p.HeapOK() && p.Account() == old(p.Account()) && |views| == k + 1
      invariant Follows(views, requests[..k], answers) && views[0] == old(p.View()) && views[k] == p.View()
    {
      var r := -1;
      p.ViewIs();
      p.SoundView();
      if Proper(p.heapAddr, p.heapSize, p.image, requests[k]) {
        r := Perform(p, requests[k]);
      }
      p.SoundView();
      StepIs(views[k], requests[k], r, p.View());
      FollowsNext(views, requests, answers, k, r, p.View());
      answers, views := answers + [r], views + [p.View()];
    }
    assert requests[..|requests|] == requests;
    FollowsLength(views, requests, answers);
  }

  lemma FollowsLength(views: seq<PagerView>, requests: seq<Request>, answers: seq<int>)
    requires Follows(views, requests, answers)
    ensures |views| == |requests| + 1
  {
  }
}
