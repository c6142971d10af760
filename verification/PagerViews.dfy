/** What the pager does, on values: its fields' meaning before and after mapping, freeing and moving the heap's end. */
module PagerViews {
  import opened HeapPages
  import opened Paging

  /** Whether a page can be mapped: it is not, and there are frames for it and for the page table it may need. */
  ghost predicate Allocates(free: seq<int>, tables: map<int, int>, large: set<int>, entries: map<int, int>, page: nat) {
    && page !in entries && page / 1024 !in large
    && |free| >= if page / 1024 in tables then 1 else 2
  }

  /** The page is mapped to the last free frame; a new table takes the one before. */
  ghost predicate AfterAllocate(free: seq<int>, tables: map<int, int>, entries: map<int, int>,
                                free': seq<int>, tables': map<int, int>, entries': map<int, int>, page: nat, flags: nat) {
    var n, t := |free|, page / 1024;
    if t in tables then
      n >= 1 && free' == free[..n - 1] && tables' == tables && entries' == entries[page := free[n - 1] + flags]
    else
      n >= 2 && free' == free[..n - 2] && tables' == tables[t := free[n - 2]] && entries' == entries[page := free[n - 1] + flags]
  }

  /** What the pager's fields mean: the page directory, the heap, the free frames in the order of the stack, the page
      tables, large pages and entries, and the pages of the boot code. */
  datatype PagerView = PagerView(pd: int, heapAddr: nat, heapSize: nat, free: seq<int>, tables: map<int, int>,
                                 large: set<int>, entries: map<int, int>, image: set<int>)
  {
    /** Number of the heap's last page. */
    function LastPage(): int {
      (heapAddr + heapSize - 1) / 4096
    }

    /** The heap can grow: it stays below its limit, no page in the way is mapped, and the frames suffice. */
    ghost predicate CanGrowBy(amount: nat) {
      && heapAddr + heapSize + amount < HEAP_LIMIT
      && CanGrow(|free|, tables.Keys, large, entries.Keys, LastPage() + 1, (heapAddr + heapSize + amount - 1) / 4096)
    }

    /** All frames accounted for. */
    ghost function Account(): set<int> {
      Holdings(pd, tables, entries - image, free)
    }

    /** No frame is used twice, and each entry has its table. */
    ghost predicate Consistent() {
      Distinct(pd, tables, entries - image, free) && EntriesOK(tables, large, entries) && image <= entries.Keys
    }

    /** Moreover the heap is mapped, to frames of its own. */
    ghost predicate Sound() {
      && Consistent() && heapAddr % 4096 == 0 && heapAddr > HEAP_LOWEST
      && INITIAL_HEAP <= heapSize && heapAddr + heapSize < HEAP_LIMIT
      && Pages(heapAddr / 4096 - 1, LastPage()) <= entries.Keys - image
    }

    ghost predicate CanMap(page: nat) {
      Allocates(free, tables, large, entries, page)
    }

    /** The page is mapped for the kernel, writable: the last free frame is its, the one before becomes the page table if there
        was none. */
    ghost function MapPage(page: nat): PagerView
      requires CanMap(page)
    {
      var n, t := |free|, page / 1024;
      if t in tables then
        this.(free := free[..n - 1], entries := entries[page := free[n - 1] + PRESENT + WRITE])
      else
        this.(free := free[..n - 2], tables := tables[t := free[n - 2]], entries := entries[page := free[n - 1] + PRESENT + WRITE])
    }

    /** The pages from first to last are mapped, until one can not be. */
    ghost function MapPages(first: nat, last: int): PagerView
      decreases last - first
    {
      if first > last || !CanMap(first) then this else MapPage(first).MapPages(first + 1, last)
    }

    /** The first of them that can not be mapped; the one after the last if all can. */
    ghost function FirstRefused(first: nat, last: int): (p: nat)
      ensures first <= p && (first <= last + 1 ==> p <= last + 1)
      decreases last - first
    {
      if first > last || !CanMap(first) then first else MapPage(first).FirstRefused(first + 1, last)
    }

    /** The page is not mapped any more and its frame is the last free one. */
    ghost function FreePage(page: int): PagerView {
      if page !in entries then this
      else this.(free := free + [FrameOf(entries[page])], entries := entries - {page}, image := image - {page})
    }

    /** The pages from first down to the one after last. */
    ghost function FreePages(first: int, last: int): PagerView
      decreases first - last
    {
      if first <= last then this else FreePage(first).FreePages(first - 1, last)
    }

    /** What heap_callback does.  A growth that can not be completed is undone page by page. */
    ghost function Moved(difference: int): PagerView {
      if difference == 0 then this
      else if difference < 0 then
        if heapSize + difference < INITIAL_HEAP && -difference <= heapSize then this
        else FreePages(LastPage(), (heapAddr + heapSize + difference - 1) / 4096).(heapSize := Wrap(heapSize + difference))
      else if heapAddr + heapSize + difference >= HEAP_LIMIT || LastPage() < 0 then this
      else
        var last := (heapAddr + heapSize + difference - 1) / 4096;
        var refused, v := FirstRefused(LastPage() + 1, last), MapPages(LastPage() + 1, last);
        if refused > last then v.(heapSize := heapSize + difference) else v.FreePages(refused - 1, LastPage())
    }
  }

  lemma MapIs(v: PagerView, page: nat, v': PagerView)
    requires v.CanMap(page) && v' == v.(free := v'.free, tables := v'.tables, entries := v'.entries)
    requires AfterAllocate(v.free, v.tables, v.entries, v'.free, v'.tables, v'.entries, page, PRESENT + WRITE)
    ensures v' == v.MapPage(page)
  {
  }

  lemma MapStep(v: PagerView, first: nat, last: int)
    ensures first > last || !v.CanMap(first) ==> v.MapPages(first, last) == v && v.FirstRefused(first, last) == first
    ensures first <= last && v.CanMap(first) ==>
              && v.MapPages(first, last) == v.MapPage(first).MapPages(first + 1, last)
              && v.FirstRefused(first, last) == v.MapPage(first).FirstRefused(first + 1, last)
  {
  }

  lemma FreeIs(v: PagerView, page: int, v': PagerView)
    requires v' == v.(free := v'.free, entries := v'.entries, image := v'.image)
    requires page in v.entries ==>
               && v'.free == v.free + [FrameOf(v.entries[page])] && v'.entries == v.entries - {page} && v'.image == v.image - {page}
    requires page !in v.entries ==> v' == v
    ensures v' == v.FreePage(page)
  {
  }

  lemma FreeStep(v: PagerView, first: int, last: int)
    ensures first <= last ==> v.FreePages(first, last) == v
    ensures first > last ==> v.FreePages(first, last) == v.FreePage(first).FreePages(first - 1, last)
  {
  }

  // ----- no frame is lost

  lemma AllocatesIs(free: seq<int>, tables: map<int, int>, large: set<int>, entries: map<int, int>, page: nat)
    ensures Allocates(free, tables, large, entries, page) <==>
              page !in entries && page / 1024 !in large && |free| >= if page / 1024 in tables then 1 else 2
  {
  }

  lemma AllocatedIs(free: seq<int>, free1: seq<int>, frame: int, table: int, tables: map<int, int>, entries: map<int, int>,
                    free': seq<int>, tables': map<int, int>, entries': map<int, int>, page: nat, flags: nat)
    requires free == free1 + [frame] && entries' == entries[page := frame + flags]
    requires page / 1024 in tables ==> free' == free1 && tables' == tables
    requires page / 1024 !in tables ==> free1 == free' + [table] && tables' == tables[page / 1024 := table]
    ensures AfterAllocate(free, tables, entries, free', tables', entries', page, flags)
    ensures |free| >= (if page / 1024 in tables then 1 else 2) && frame == free[|free| - 1]
  {
  }

  lemma Allocated(free: seq<int>, tables: map<int, int>, entries: map<int, int>,
                  free': seq<int>, tables': map<int, int>, entries': map<int, int>, page: nat)
    requires AfterAllocate(free, tables, entries, free', tables', entries', page, PRESENT + WRITE)
    ensures |free| > 0 && entries' == entries[page := free[|free| - 1] + PRESENT + WRITE]
    ensures |free'| == |free| - (if page / 1024 in tables then 1 else 2) && tables'.Keys == tables.Keys + {page / 1024}
    ensures TableAdded(tables, tables', page / 1024)
  {
  }

  /** What is owned after a page is gone. */
  lemma OwnedAfter(entries: map<int, int>, image: set<int>, page: int)
    ensures var owned := entries - {page} - (image - {page});
            && (page in image ==> owned == entries - image)
            && (page !in image ==> owned == entries - image - {page} && image - {page} == image)
            && (page !in image && page in entries ==> page in entries - image && (entries - image)[page] == entries[page])
            && forall v :: v in owned ==> v in entries - image && (entries - image)[v] == owned[v]
  {
  }

  lemma UnownedIs(frame: int, pd: int, tables: map<int, int>, entries: map<int, int>, free: seq<int>)
    requires Distinct(pd, tables, entries, free) && IsFrame(frame) && frame != pd && frame !in free
    requires frame !in tables.Values && forall v :: v in entries ==> FrameOf(entries[v]) != frame
    ensures Distinct(pd, tables, entries, free + [frame])
  {
  }

  lemma OwnedNot(frame: int, pd: int, tables: map<int, int>, entries: map<int, int>, free: seq<int>)
    requires Distinct(pd, tables, entries, free + [frame])
    ensures Distinct(pd, tables, entries, free) && IsFrame(frame) && frame != pd && frame !in free
    ensures frame !in tables.Values && forall v :: v in entries ==> FrameOf(entries[v]) != frame
  {
    var all := free + [frame];
    assert all[|free|] == frame && frame in all;
    assert forall t :: t in tables ==> tables[t] != frame;
    forall i | 0 <= i < |free|
      ensures all[i] == free[i]
    {
    }
  }

  lemma EntryDistinct(pd: int, tables: map<int, int>, owned: map<int, int>, free: seq<int>, page: nat, frame: int, flags: nat)
    requires Distinct(pd, tables, owned, free) && page !in owned
    requires IsFrame(frame) && frame != pd && frame !in free && frame !in tables.Values
    requires forall v :: v in owned ==> FrameOf(owned[v]) != frame
    requires FrameOf(frame + flags) == frame
    ensures Distinct(pd, tables, owned[page := frame + flags], free)
  {
    hide IsFrame, FrameOf, FramesDiffer;
    assert forall t :: t in tables ==> tables[t] != frame;
  }

  lemma EntryBounds(tables: map<int, int>, large: set<int>, entries: map<int, int>, page: nat, w: int)
    requires EntriesOK(tables, large, entries)
    ensures page < ENTRIES * STACK_TABLE && page / 1024 in tables && Present(w) ==> EntriesOK(tables, large, entries[page := w])
    ensures EntriesOK(tables, large, entries - {page})
  {
    hide Present;
  }

  lemma EntryLeaves(pd: int, tables: map<int, int>, owned: map<int, int>, free: seq<int>, page: int)
    requires Distinct(pd, tables, owned, free) && page in owned
    ensures Distinct(pd, tables, owned - {page}, free)
    ensures var frame := FrameOf(owned[page]);
            && IsFrame(frame) && frame != pd && frame !in free && frame !in tables.Values
            && forall u :: u in owned - {page} ==> FrameOf((owned - {page})[u]) != frame
  {
    hide IsFrame, FrameOf, FramesDiffer;
    assert forall t :: t in tables ==> tables[t] != FrameOf(owned[page]);
  }

  lemma FlagBounds(frame: int, flags: nat)
    requires IsFrame(frame) && flags < 128 && flags % 2 == 1
    ensures FrameOf(frame) + flags % 4096 == frame + flags && Present(frame + flags) && FrameOf(frame + flags) == frame
  {
    EntryOf(frame, flags);
  }

  lemma AllocateHolds(pd: int, tables: map<int, int>, entries: map<int, int>, image: set<int>, free: seq<int>,
                      tables': map<int, int>, entries': map<int, int>, free': seq<int>, page: nat, flags: nat)
    requires AfterAllocate(free, tables, entries, free', tables', entries', page, flags)
    requires page !in entries && image <= entries.Keys && FrameOf(free[|free| - 1] + flags) == free[|free| - 1]
    ensures Holdings(pd, tables', entries' - image, free') == Holdings(pd, tables, entries - image, free)
  {
    hide Holdings, FrameOf;
    var n, t := |free|, page / 1024;
    var front, frame := free[..n - 1], free[n - 1];
    assert free == front + [frame];
    assert entries' - image == (entries - image)[page := frame + flags];
    MapHolds(pd, tables, entries - image, front, frame, page, flags);
    if t !in tables {
      assert front == free[..n - 2] + [free[n - 2]];
      TableHolds(pd, tables, entries' - image, free', t, free[n - 2]);
    }
  }

  lemma FreeHolds(pd: int, tables: map<int, int>, entries: map<int, int>, image: set<int>, free: seq<int>, page: int)
    requires page in entries
    ensures Holdings(pd, tables, entries - {page} - (image - {page}), free + [FrameOf(entries[page])]) ==
            Holdings(pd, tables, entries - image, free) + {FrameOf(entries[page])}
    ensures page !in image ==> FrameOf(entries[page]) in Holdings(pd, tables, entries - image, free)
    ensures page !in image ==>
              Holdings(pd, tables, entries - image, free) + {FrameOf(entries[page])} == Holdings(pd, tables, entries - image, free)
  {
    hide *;
    var owned, frame := entries - image, FrameOf(entries[page]);
    OwnedAfter(entries, image, page);
    HoldingsIs(pd, tables, owned, free);
    if page in image {
      HoldingsIs(pd, tables, owned, free + [frame]);
      FreeWithOne(free, frame);
    } else {
      UnmapHolds(pd, tables, owned, free, page);
      assert owned[page] == entries[page];
      assert frame in set v | v in owned :: FrameOf(owned[v]);
    }
  }

  lemma ConsistentIs(v: PagerView)
    ensures v.Consistent() <==>
              Distinct(v.pd, v.tables, v.entries - v.image, v.free) && EntriesOK(v.tables, v.large, v.entries) && v.image <= v.entries.Keys
    ensures v.Account() == Holdings(v.pd, v.tables, v.entries - v.image, v.free)
  {
  }

  lemma MapPageIs(v: PagerView, page: nat)
    requires v.CanMap(page)
    ensures var v', n, t := v.MapPage(page), |v.free|, page / 1024;
            && n >= 1 && page !in v.entries && v' == v.(free := v'.free, tables := v'.tables, entries := v'.entries)
            && v'.entries == v.entries[page := v.free[n - 1] + PRESENT + WRITE] && v.free == v.free[..n - 1] + [v.free[n - 1]]
            && (t in v.tables ==> v'.free == v.free[..n - 1] && v'.tables == v.tables)
            && (t !in v.tables ==> n >= 2 && v.free[..n - 1] == v'.free + [v.free[n - 2]] && v'.tables == v.tables[t := v.free[n - 2]]
                                   && t !in v.large)
            && AfterAllocate(v.free, v.tables, v.entries, v'.free, v'.tables, v'.entries, page, PRESENT + WRITE)
  {
  }

  lemma KernelFlags(frame: int)
    requires IsFrame(frame)
    ensures FrameOf(frame + PRESENT + WRITE) == frame && Present(frame + PRESENT + WRITE)
    ensures frame + (PRESENT + WRITE) == frame + PRESENT + WRITE
  {
    FlagBounds(frame, PRESENT + WRITE);
  }

  lemma TableDistinct(pd: int, tables: map<int, int>, owned: map<int, int>, free: seq<int>, t: int, table: int)
    requires Distinct(pd, tables, owned, free + [table]) && t !in tables
    ensures Distinct(pd, tables[t := table], owned, free)
  {
    OwnedNot(table, pd, tables, owned, free);
    assert forall u :: u in tables ==> tables[u] != table;
    hide IsFrame, FrameOf;
  }

  lemma TableBounds(tables: map<int, int>, large: set<int>, entries: map<int, int>, page: nat, table: int)
    requires EntriesOK(tables, large, entries) && page < ENTRIES * STACK_TABLE && page / 1024 !in large
    ensures EntriesOK(tables[page / 1024 := table], large, entries)
  {
    hide Present;
  }

  /** A page is mapped to a frame of its own. */
  lemma MapPageKeeps(v: PagerView, page: nat)
    requires v.Consistent() && v.CanMap(page) && page < ENTRIES * STACK_TABLE
    ensures v.MapPage(page).Consistent() && v.MapPage(page).Account() == v.Account()
  {
    hide *;
    var v', n := v.MapPage(page), |v.free|;
    MapPageIs(v, page);
    ConsistentIs(v);
    ConsistentIs(v');
    var frame, front, owned := v.free[n - 1], v.free[..n - 1], v.entries - v.image;
    OwnedNot(frame, v.pd, v.tables, owned, front);
    KernelFlags(frame);
    assert v'.entries - v.image == owned[page := frame + PRESENT + WRITE];
    EntryDistinct(v.pd, v.tables, owned, front, page, frame, PRESENT + WRITE);
    if page / 1024 !in v.tables {
      TableDistinct(v.pd, v.tables, owned[page := frame + PRESENT + WRITE], v'.free, page / 1024, v.free[n - 2]);
      TableBounds(v.tables, v.large, v.entries, page, v.free[n - 2]);
    }
    EntryBounds(v'.tables, v.large, v.entries, page, frame + PRESENT + WRITE);
    AllocateHolds(v.pd, v.tables, v.entries, v.image, v.free, v'.tables, v'.entries, v'.free, page, PRESENT + WRITE);
  }

  /** The frame of a page that goes is free. */
  lemma FreePageKeeps(v: PagerView, page: int)
    requires v.Consistent() && page !in v.image
    ensures v.FreePage(page).Consistent() && v.FreePage(page).Account() == v.Account()
    ensures v.FreePage(page) == v.(free := v.FreePage(page).free, entries := v.entries - {page})
  {
    if page in v.entries {
      var owned, frame := v.entries - v.image, FrameOf(v.entries[page]);
      FreeParts(v, page);
      hide *;
      ConsistentIs(v);
      ConsistentIs(v.FreePage(page));
      OwnedAfter(v.entries, v.image, page);
      EntryLeaves(v.pd, v.tables, owned, v.free, page);
      UnownedIs(frame, v.pd, v.tables, owned - {page}, v.free);
      EntryGone(v.tables, v.large, v.entries, page);
      FreeHolds(v.pd, v.tables, v.entries, v.image, v.free, page);
    } else {
      assert v.entries - {page} == v.entries;
    }
  }

  lemma EntryGone(tables: map<int, int>, large: set<int>, entries: map<int, int>, page: int)
    requires EntriesOK(tables, large, entries)
    ensures EntriesOK(tables, large, entries - {page})
  {
    hide Present;
  }

  lemma FreeParts(v: PagerView, page: int)
    requires page in v.entries && page !in v.image && v.image <= v.entries.Keys
    ensures v.FreePage(page) == v.(free := v.free + [FrameOf(v.entries[page])], entries := v.entries - {page})
    ensures v.image <= (v.entries - {page}).Keys
  {
    assert v.image - {page} == v.image;
  }

  lemma {:induction false} FreePagesKeep(v: PagerView, first: int, last: int)
    requires v.Consistent() && Pages(last, first) !! v.image
    ensures v.FreePages(first, last).Consistent() && v.FreePages(first, last).Account() == v.Account()
    ensures v.FreePages(first, last) == v.(free := v.FreePages(first, last).free, entries := v.entries - Pages(last, first))
    decreases first - last
  {
    hide *;
    FreeStep(v, first, last);
    if first <= last {
      PagesEmpty(last, first);
      assert v.entries - {} == v.entries;
    } else {
      PagesAbove(last, first - 1);
      FreePageKeeps(v, first);
      FreePagesKeep(v.FreePage(first), first - 1, last);
      assert v.entries - {first} - Pages(last, first - 1) == v.entries - Pages(last, first);
    }
  }

  lemma PagesEmpty(lo: int, hi: int)
    requires hi <= lo
    ensures Pages(lo, hi) == {}
  {
  }

  /** One of them. */
  lemma MapOne(v: PagerView, base: map<int, int>, lo: int, p: nat)
    requires v.Consistent() && p < ENTRIES * STACK_TABLE && lo < p && Grown(base, v.entries, lo, p - 1) && v.CanMap(p)
    ensures var w := v.MapPage(p);
            && w.Consistent() && w.Account() == v.Account() && w == v.(free := w.free, tables := w.tables, entries := w.entries)
            && Grown(base, w.entries, lo, p) && w.tables.Keys == v.tables.Keys + {p / 1024}
            && |w.free| == |v.free| - if p / 1024 in v.tables then 1 else 2
  {
    hide *;
    var w := v.MapPage(p);
    NotYet(base, v.entries, lo, p);
    MapPageIs(v, p);
    MapPageKeeps(v, p);
    ConsistentIs(v);
    OwnedNot(v.free[|v.free| - 1], v.pd, v.tables, v.entries - v.image, v.free[..|v.free| - 1]);
    GrowPage(base, v.entries, w.entries, lo, p, v.free[|v.free| - 1]);
    assert w.tables.Keys == v.tables.Keys + {p / 1024};
  }

  /** The pages that can be mapped one by one are, each to a frame of its own. */
  lemma {:induction false} MapPagesKeep(v: PagerView, base: map<int, int>, lo: int, first: nat, last: int)
    requires v.Consistent() && last < ENTRIES * STACK_TABLE && lo < first && Grown(base, v.entries, lo, first - 1)
    ensures v.MapPages(first, last).Consistent() && v.MapPages(first, last).Account() == v.Account()
    ensures var w := v.MapPages(first, last); w == v.(free := w.free, tables := w.tables, entries := w.entries)
    ensures Grown(base, v.MapPages(first, last).entries, lo, v.FirstRefused(first, last) - 1)
    ensures v.FirstRefused(first, last) > last <==> CanGrow(|v.free|, v.tables.Keys, v.large, base.Keys, first, last)
    decreases last - first
  {
    hide *;
    MapStep(v, first, last);
    CanGrowStep(|v.free|, v.tables.Keys, v.large, base.Keys, first, last);
    CanMapIs(v, first);
    NotYet(base, v.entries, lo, first);
    if first <= last && v.CanMap(first) {
      MapOne(v, base, lo, first);
      MapPagesKeep(v.MapPage(first), base, lo, first + 1, last);
    }
  }

  lemma CanMapIs(v: PagerView, page: nat)
    ensures v.CanMap(page) <==>
              page !in v.entries && page / 1024 !in v.large && |v.free| >= if page / 1024 in v.tables then 1 else 2
  {
  }

  lemma MovedIs(v: PagerView, d: int)
    requires v.heapAddr > 0 && v.heapSize > 0
    ensures d == 0 ==> v.Moved(d) == v
    ensures d < 0 ==> v.Moved(d) == if v.heapSize + d < INITIAL_HEAP && -d <= v.heapSize then v
                                    else v.FreePages(v.LastPage(), (v.heapAddr + v.heapSize + d - 1) / 4096)
                                          .(heapSize := Wrap(v.heapSize + d))
    ensures d > 0 && v.heapAddr + v.heapSize + d >= HEAP_LIMIT ==> v.Moved(d) == v
    ensures v.LastPage() == (v.heapAddr + v.heapSize - 1) / 4096 >= 0
    ensures d > 0 && v.heapAddr + v.heapSize + d < HEAP_LIMIT ==>
              var last := (v.heapAddr + v.heapSize + d - 1) / 4096;
              var refused, w := v.FirstRefused(v.LastPage() + 1, last), v.MapPages(v.LastPage() + 1, last);
              v.Moved(d) == if refused > last then w.(heapSize := v.heapSize + d) else w.FreePages(refused - 1, v.LastPage())
  {
  }

  lemma SoundIs(v: PagerView)
    ensures v.Sound() <==>
              && v.Consistent() && v.heapAddr % 4096 == 0 && v.heapAddr > 0x8000_0000
              && 8192 <= v.heapSize && v.heapAddr + v.heapSize < 0xFF80_0000
              && Pages(v.heapAddr / 4096 - 1, v.LastPage()) <= v.entries.Keys - v.image
    ensures v.LastPage() == (v.heapAddr + v.heapSize - 1) / 4096
    ensures INITIAL_HEAP == 8192 && HEAP_LIMIT == 0xFF80_0000
  {
  }

  lemma CanGrowByIs(v: PagerView, amount: nat)
    ensures v.CanGrowBy(amount) <==>
              && v.heapAddr + v.heapSize + amount < HEAP_LIMIT
              && CanGrow(|v.free|, v.tables.Keys, v.large, v.entries.Keys, v.LastPage() + 1,
                         (v.heapAddr + v.heapSize + amount - 1) / 4096)
  {
  }

  /** Where the pages that come or go are. */
  lemma HeapParts(start: int, size: int, d: int)
    requires start % 4096 == 0 && 0 < start && 0 < size && 0 < size + d && start + size + d < 0xFF80_0000
    ensures var base, last, end := start / 4096 - 1, (start + size - 1) / 4096, (start + size + d - 1) / 4096;
            && 0 <= base < last && base < end < ENTRIES * STACK_TABLE
            && (d <= 0 ==> end <= last) && (d >= 0 ==> last <= end)
  {
  }

  lemma ResizedKeeps(v: PagerView, size: nat)
    ensures var v' := v.(heapSize := size); (v.Consistent() <==> v'.Consistent()) && v'.Account() == v.Account()
  {
  }

  lemma HeapStays(entries: map<int, int>, image: set<int>, base: int, end: int, last: int)
    requires base <= end <= last && Pages(base, last) <= entries.Keys - image
    ensures Pages(base, end) <= (entries - Pages(end, last)).Keys - image && Pages(end, last) !! image
  {
    PagesSplit(base, end, last);
    hide Pages;
  }

  lemma HeapGrows(entries: map<int, int>, entries': map<int, int>, image: set<int>, base: int, last: int, end: int)
    requires base <= last <= end && Pages(base, last) <= entries.Keys - image && Grown(entries, entries', last, end)
    requires image <= entries.Keys
    ensures Pages(base, end) <= entries'.Keys - image
  {
    PagesSplit(base, last, end);
    hide Pages;
  }

  lemma MovedDown(v: PagerView, d: int)
    requires v.Sound() && -0x8000_0000 <= d < 0 && -d <= v.heapSize
    ensures v.Moved(d).Sound() && v.Moved(d).Account() == v.Account()
    ensures v.Moved(d).heapSize == v.heapSize + if v.heapSize + d >= INITIAL_HEAP then d else 0
    ensures v.Moved(d).heapSize == v.heapSize ==> v.Moved(d).entries == v.entries
    ensures v.Moved(d).image == v.image && v.Moved(d).heapAddr == v.heapAddr
  {
    hide *;
    SoundIs(v);
    MovedIs(v, d);
    SoundIs(v.Moved(d));
    WrapIs(v.heapSize + d);
    var last, end := v.LastPage(), (v.heapAddr + v.heapSize + d - 1) / 4096;
    if v.heapSize + d >= INITIAL_HEAP {
      HeapParts(v.heapAddr, v.heapSize, d);
      HeapStays(v.entries, v.image, v.heapAddr / 4096 - 1, end, last);
      FreePagesKeep(v, last, end);
      ResizedKeeps(v.FreePages(last, end), v.heapSize + d);
    }
  }

  lemma MovedUp(v: PagerView, d: int)
    requires v.Sound() && 0 < d < 0x8000_0000
    ensures v.Moved(d).Sound() && v.Moved(d).Account() == v.Account()
    ensures v.Moved(d).heapSize == v.heapSize + if v.CanGrowBy(d) then d else 0
    ensures v.Moved(d).heapSize == v.heapSize ==> v.Moved(d).entries == v.entries
    ensures v.Moved(d).image == v.image && v.Moved(d).heapAddr == v.heapAddr
  {
    hide *;
    SoundIs(v);
    MovedIs(v, d);
    CanGrowByIs(v, d);
    if v.heapAddr + v.heapSize + d < HEAP_LIMIT {
      HeapParts(v.heapAddr, v.heapSize, d);
      ExtendKeeps(v, d, v.LastPage(), (v.heapAddr + v.heapSize + d - 1) / 4096);
    }
  }

  /** The pages behind the last one are mapped, or all that were are free again. */
  lemma ExtendKeeps(v: PagerView, d: int, last: nat, end: nat)
    requires v.Sound() && 0 < d && last == v.LastPage() && last <= end < ENTRIES * STACK_TABLE
    requires end == (v.heapAddr + v.heapSize + d - 1) / 4096 && v.heapAddr + v.heapSize + d < HEAP_LIMIT
    requires v.heapAddr / 4096 - 1 < last
    ensures var w, refused := v.MapPages(last + 1, end), v.FirstRefused(last + 1, end);
            var u := if refused > end then w.(heapSize := v.heapSize + d) else w.FreePages(refused - 1, last);
            && u.Sound() && u.Account() == v.Account() && u.image == v.image && u.heapAddr == v.heapAddr
            && (refused > end <==> CanGrow(|v.free|, v.tables.Keys, v.large, v.entries.Keys, last + 1, end))
            && (refused <= end ==> u.heapSize == v.heapSize && u.entries == v.entries)
  {
    hide *;
    SoundIs(v);
    ConsistentIs(v);
    NothingGrown(v.entries, v.tables, last, last);
    MapPagesKeep(v, v.entries, last, last + 1, end);
    var w, refused := v.MapPages(last + 1, end), v.FirstRefused(last + 1, end);
    GrownBack(v.entries, w.entries, last, refused - 1, v.image);
    if refused > end {
      ResizedKeeps(w, v.heapSize + d);
      HeapGrows(v.entries, w.entries, v.image, v.heapAddr / 4096 - 1, last, end);
      SoundIs(w.(heapSize := v.heapSize + d));
    } else {
      FreePagesKeep(w, refused - 1, last);
      SoundIs(w.FreePages(refused - 1, last));
    }
  }

  /** Moving the heap's end keeps the pages and frames in order, whether it succeeds or not, and loses no frame.  It succeeds
      exactly when the heap can grow, or enough remains, and a refusal leaves all pages as they were. */
  lemma MovedKeeps(v: PagerView, d: int)
    requires v.Sound() && -0x8000_0000 <= d < 0x8000_0000 && -d <= v.heapSize
    ensures v.Moved(d).Sound() && v.Moved(d).Account() == v.Account()
    ensures d > 0 ==> v.Moved(d).heapSize == v.heapSize + if v.CanGrowBy(d) then d else 0
    ensures d < 0 ==> v.Moved(d).heapSize == v.heapSize + if v.heapSize + d >= INITIAL_HEAP then d else 0
    ensures v.Moved(d).heapSize == v.heapSize ==> v.Moved(d).entries == v.entries
    ensures v.Moved(d).image == v.image && v.Moved(d).heapAddr == v.heapAddr
  {
    hide *;
    SoundIs(v);
    MovedIs(v, d);
    if d < 0 {
      MovedDown(v, d);
    } else if d > 0 {
      MovedUp(v, d);
    }
  }
}
