/** Starting the memory manager: the free frames, the first pages of the heap, the end of the identity mapping
    (memory_init), and everything that happens to pages afterwards. */
module MemoryInit {
  import opened BootMap
  import opened BootPaging
  import opened FreeFrames
  import opened HeapPages
  import opened MemoryMap
  import opened PagerOps
  import opened PagerViews
  import opened Paging
  import opened Sweep
  import opened Sequences

  /** Nobody uses the frame yet. */
  ghost predicate Unused(p: Pager, f: int)
    reads p`pd, p`tables, p`entries, p`image
  {
    && f != p.pd && f !in p.tables.Values
    && forall v :: v in p.entries && v !in p.image ==> FrameOf(p.entries[v]) != f
  }

  lemma {:induction false} FramesFreePrefix(out: seq<Region>, k: nat)
    requires k <= |out|
    ensures FramesFree(out[..k]) <= FramesFree(out)
    decreases |out|
  {
    if k == |out| {
      assert out[..k] == out;
    } else {
      assert out[..|out| - 1][..k] == out[..k];
      FramesFreePrefix(out[..|out| - 1], k);
    }
  }

  lemma {:induction false} FramesInSnoc(frame: int, f: int)
    requires frame % PAGE == 0 && f % PAGE == 0 && frame <= f
    ensures FramesIn(frame, f + PAGE) == FramesIn(frame, f) + [f]
    decreases f - frame
  {
    if frame < f {
      FramesInSnoc(frame + PAGE, f);
      assert FramesIn(frame, f) == [frame] + FramesIn(frame + PAGE, f);
    } else {
      assert FramesIn(frame + PAGE, f + PAGE) == [];
    }
  }

  lemma {:induction false} FramesInPrefix(frame: int, f: int, end: int)
    requires frame % PAGE == 0 && f % PAGE == 0 && end % PAGE == 0 && f <= end
    ensures FramesIn(frame, f) <= FramesIn(frame, end)
    decreases f - frame
  {
    if frame < f {
      FramesInPrefix(frame + PAGE, f, end);
    }
  }

  /** The frames of a region are on the stack when the loop is over. */
  lemma RegionDone(out: seq<Region>, i: nat, frame: int)
    requires i < |out| && PageAlign(out[i].address) % PAGE == 0 && frame % PAGE == 0
    requires out[i].kind == FREE ==> frame == PageAlign(out[i].address) >= PageFloor(Finish(out[i]))
                                     || (PageAlign(out[i].address) <= frame == PageFloor(Finish(out[i])))
    ensures FramesFree(out[..i + 1]) ==
            FramesFree(out[..i]) + if out[i].kind == FREE then FramesIn(PageAlign(out[i].address), frame) else []
  {
    assert out[..i + 1][..i] == out[..i];
  }

  lemma RegionBounds(out: seq<Region>, i: nat)
    requires RegionsOK(out) && Fits(out) && NoHigh(out) && i < |out| && out[i].kind == FREE
    ensures PageAlign(out[i].address) % PAGE == 0 && PageFloor(Finish(out[i])) % PAGE == 0
    ensures 0 <= PageAlign(out[i].address) && PageFloor(Finish(out[i])) <= 0xFFFF_F000
    ensures FramesIn(PageAlign(out[i].address), PageAlign(out[i].address)) == []
  {
    hide *;
    RegionIs(out, i);
    AlignIs(out[i].address);
    FloorAligned(Finish(out[i]));
    FramesInNone(PageAlign(out[i].address));
  }

  lemma RegionIs(out: seq<Region>, i: nat)
    requires RegionsOK(out) && Fits(out) && i < |out|
    ensures 0 <= out[i].address < TOP && 0 <= Finish(out[i]) <= TOP
  {
  }

  lemma FloorAligned(v: int)
    requires 0 <= v <= TOP
    ensures PageFloor(v) % PAGE == 0 && PageFloor(v) <= 0xFFFF_F000
  {
  }

  lemma FramesInNone(frame: int)
    ensures FramesIn(frame, frame) == []
  {
  }

  lemma FrameIs(frame: int)
    requires frame % PAGE == 0
    ensures 0 <= frame < 0xFFFF_F000 ==> IsFrame(frame)
  {
  }

  lemma NextAligned(frame: int, end: int)
    requires frame % PAGE == 0 && end % PAGE == 0 && frame < end
    ensures (frame + PAGE) % PAGE == 0 && frame + PAGE <= end && PAGE == 4096
  {
  }

  /** The next frame of a region is not on the stack yet, and may go there. */
  lemma NextFrame(out: seq<Region>, i: nat, frame: int)
    requires RegionsOK(out) && Fits(out) && NoHigh(out) && i < |out| && out[i].kind == FREE
    requires PageAlign(out[i].address) <= frame < PageFloor(Finish(out[i])) && frame % PAGE == 0
    ensures var done, start := FramesFree(out[..i]), PageAlign(out[i].address);
            && frame in FramesFree(out) && frame !in done + FramesIn(start, frame)
            && done + FramesIn(start, frame + PAGE) == done + FramesIn(start, frame) + [frame]
    ensures IsFrame(frame)
  {
    hide *;
    var done, start, end := FramesFree(out[..i]), PageAlign(out[i].address), PageFloor(Finish(out[i]));
    RegionBounds(out, i);
    NextAligned(frame, end);
    FrameIs(frame);
    FramesInSnoc(start, frame);
    FramesInPrefix(start, frame + PAGE, end);
    RegionDone(out, i, end);
    FramesFreePrefix(out, i + 1);
    FramesFreeOnce(out);
    var so := done + FramesIn(start, frame);
    assert so + [frame] <= FramesFree(out);
    PrefixNew(FramesFree(out), so, frame);
  }

  lemma PrefixNew(xs: seq<int>, ys: seq<int>, x: int)
    requires NoDup(xs) && ys + [x] <= xs
    ensures x in xs && x !in ys
  {
    assert xs[|ys|] == (ys + [x])[|ys|];
    assert forall i :: 0 <= i < |ys| ==> xs[i] == (ys + [x])[i] == ys[i];
  }

  lemma FinishIs(r: Region)
    ensures Finish(r) == r.address + r.size
    ensures r.kind == FREE || r.kind != FREE
  {
  }

  lemma WrapNot(frame: int)
    requires 0 <= frame < 0xFFFF_F000
    ensures Wrap(frame + PAGE) == frame + PAGE
  {
  }

  /** The loop of memory_init over the free regions. */
  method PushFree(p: Pager, regions: seq<Region>)
    requires p.Valid() && Frames(p.stack) == [] && RegionsOK(regions) && Fits(regions) && NoHigh(regions)
    requires forall f :: f in FramesFree(regions) ==> Unused(p, f)
    modifies p`mem, p`sp, p`stack
    ensures p.Valid() && Frames(p.stack) == FramesFree(regions)
  {
    hide *;
    assert regions[..0] == [];
    FramesNone();
    PageSize();
    for i := 0 to |regions|
      invariant p.Valid() && Frames(p.stack) == FramesFree(regions[..i])
    {
      ghost var done := Frames(p.stack);
      RegionSkipped(regions, i);
      if regions[i].kind == FREE {
        var frame := PageAlign(regions[i].address);
        var end := PageFloor(regions[i].address + regions[i].size);
        ghost var start := frame;
        FinishIs(regions[i]);
        RegionBounds(regions, i);
        while frame < end
          invariant p.Valid() && Frames(p.stack) == done + FramesIn(start, frame)
          invariant frame % PAGE == 0 && (frame == start >= end || start <= frame <= end)
          decreases end - frame
        {
          NextFrame(regions, i, frame);
          NextAligned(frame, end);
          WrapNot(frame);
          UnusedIs(p, frame);
          p.FoldUnowned(frame);
          var r := p.StackPush(frame);
          frame := Wrap(frame + PAGE);
        }
        RegionDone(regions, i, frame);
      }
    }
    assert regions[..|regions|] == regions;
  }

  lemma PageSize()
    ensures PAGE == 4096
  {
  }

  lemma FramesNone()
    ensures FramesFree([]) == []
  {
  }

  lemma RegionSkipped(out: seq<Region>, i: nat)
    requires i < |out|
    ensures out[i].kind != FREE ==> FramesFree(out[..i + 1]) == FramesFree(out[..i])
  {
    assert out[..i + 1][..i] == out[..i];
  }

  lemma UnusedIs(p: Pager, f: int)
    ensures Unused(p, f) <==> && f != p.pd && f !in p.tables.Values
                              && forall v :: v in p.entries && v !in p.image ==> FrameOf(p.entries[v]) != f
  {
  }

  /** The first pages of the heap are mapped; the kernel stops when that is not possible. */
  method MapHeap(p: Pager) returns (ok: bool)
    requires p.Valid() && p.heapAddr % 4096 == 0 && p.heapAddr > 0 && p.heapSize == 8192
    requires p.heapAddr + p.heapSize < STACK_BOTTOM
    modifies p`mem, p`sp, p`stack, p`tables, p`entries
    ensures p.Valid() && p.Account() == old(p.Account())
    ensures var h := p.heapAddr / 4096;
            && (ok <==> CanGrow(|Frames(old(p.stack))|, old(p.tables).Keys, p.large, old(p.entries).Keys, h, h + 1))
            && (ok ==> Grown(old(p.entries), p.entries, h - 1, h + 1) && TablesGrown(old(p.tables), p.tables, h - 1, h + 1))
  {
    hide *;
    ghost var free, tables0, entries0, h := Frames(p.stack), p.tables, p.entries, p.heapAddr / 4096;
    NothingGrown(p.entries, p.tables, h - 1, h + 1);
    var i := 0;
    while i < p.heapSize
      invariant i % 4096 == 0 && 0 <= i <= p.heapSize
      invariant p.Valid() && p.Account() == old(p.Account())
      invariant Grown(entries0, p.entries, h - 1, h + i / 4096 - 1) && TablesGrown(tables0, p.tables, h - 1, h + 1)
      invariant CanGrow(|free|, tables0.Keys, p.large, entries0.Keys, h, h + 1) <==>
                CanGrow(|Frames(p.stack)|, p.tables.Keys, p.large, entries0.Keys, h + i / 4096, h + 1)
    {
      ghost var page, free1, tables1, entries1 := h + i / 4096, Frames(p.stack), p.tables, p.entries;
      CanGrowStep(|free1|, p.tables.Keys, p.large, entries0.Keys, page, h + 1);
      NotYet(entries0, p.entries, h - 1, page);
      AllocatesIs(free1, p.tables, p.large, p.entries, page);
      p.FreeFrames();
      var r := p.MemoryAllocatePage(p.heapAddr + i, false, true);
      if r != 0 {
        return false;
      }
      Allocated(free1, tables1, entries1, Frames(p.stack), p.tables, p.entries, page);
      GrowPage(entries0, entries1, p.entries, h - 1, page, free1[|free1| - 1]);
      TablesStep(tables0, tables1, p.tables, h - 1, page, h + 1);
      i := i + 4096;
    }
    CanGrowStep(|Frames(p.stack)|, p.tables.Keys, p.large, entries0.Keys, h + i / 4096, h + 1);
    ok := true;
  }

  lemma LargeDropped(p: Pager, t: int)
    requires p.Valid() && 0 <= t < KERNEL_TABLE && t !in p.tables
    ensures TablesStored(p.mem[p.pd + 4 * t := 0], p.pd, p.tables, p.large - {t}, p.entries, p.stack)
    ensures EntriesOK(p.tables, p.large - {t}, p.entries)
  {
    hide TablesStored, Distinct, Frames;
    p.ValidIs();
    ShapeFits(p.stack);
    DropLarge(p.mem, p.pd, p.tables, p.large, p.entries, p.stack, t);
  }

  lemma LargeLess(large: set<int>, now: set<int>, i: int)
    requires forall t :: t in now <==> t in large && !(0 <= t < i)
    requires i >= 0
    ensures forall t :: t in now - {i} <==> t in large && !(0 <= t < i + 1)
  {
  }

  /** The identity mapping of the boot code is removed. */
  method UnmapIdentity(p: Pager, kernelStart: nat)
    requires p.Valid() && kernelStart / 0x40_0000 <= KERNEL_TABLE
    requires forall t :: t in p.tables ==> t >= kernelStart / 0x40_0000
    modifies p`mem, p`large
    ensures p.Valid()
    ensures forall t :: t in p.large <==> t in old(p.large) && !(0 <= t < kernelStart / 0x40_0000)
  {
    hide *;
    for i := 0 to kernelStart / 0x40_0000
      invariant p.Valid() && forall t :: t in p.large <==> t in old(p.large) && !(0 <= t < i)
    {
      p.ValidIs();
      LargeDropped(p, i);
      LargeLess(old(p.large), p.large, i);
      p.mem := p.mem[p.pd + 4 * i := 0];
      p.large := p.large - {i};
      p.ValidIs();
    }
  }

  lemma HeapStarts(p: Pager, entries: map<int, int>, tables: map<int, int>)
    requires p.Valid() && p.heapAddr % 4096 == 0 && p.heapAddr > 0xC000_0000 && p.heapSize == INITIAL_HEAP
    requires p.heapAddr + p.heapSize < STACK_BOTTOM && p.image <= entries.Keys
    requires var h := p.heapAddr / 4096;
             Grown(entries, p.entries, h - 1, h + 1) && TablesGrown(tables, p.tables, h - 1, h + 1)
    requires forall t :: t in tables ==> t >= KERNEL_TABLE
    ensures p.HeapOK() && forall t :: t in p.tables ==> t >= KERNEL_TABLE
  {
    var h := p.heapAddr / 4096;
    GrownBack(entries, p.entries, h - 1, h + 1, p.image);
    assert p.LastPage() == h + 1;
    hide Grown, Pages;
  }

  lemma Initial()
    ensures INITIAL_HEAP == 8192 && HEAP_LIMIT == STACK_BOTTOM && KERNEL_TABLE == 768 && STACK_BOTTOM > 0xC200_0000
  {
  }

  /** memory_init: the stack takes the free frames, the heap gets its first pages, and what is left is the kernel's part
      of the address space.  Without frames for the heap the kernel stops. */
  method Start(p: Pager, regions: seq<Region>, kernelStart: nat, kernelEnd: nat) returns (ok: bool)
    requires p.Valid() && Frames(p.stack) == [] && RegionsOK(regions) && Fits(regions) && NoHigh(regions)
    requires forall f :: f in FramesFree(regions) ==> Unused(p, f)
    requires kernelEnd % 4096 == 0 && 0xC000_0000 < kernelEnd <= 0xC100_0000 && kernelStart / 0x40_0000 == KERNEL_TABLE
    requires forall t :: t in p.tables ==> t >= KERNEL_TABLE
    modifies p
    ensures ok <==> CanGrow(|FramesFree(regions)|, old(p.tables).Keys, old(p.large), old(p.entries).Keys,
                            kernelEnd / 4096, kernelEnd / 4096 + 1)
    ensures ok ==>
              && p.HeapOK() && p.heapAddr == kernelEnd && p.heapSize == INITIAL_HEAP && p.pd == old(p.pd)
              && p.image == old(p.image)
              && p.Account() == Holdings(p.pd, old(p.tables), old(p.entries) - p.image, FramesFree(regions))
              && Grown(old(p.entries), p.entries, kernelEnd / 4096 - 1, kernelEnd / 4096 + 1)
              && (forall t :: t in p.large <==> t in old(p.large) && !(0 <= t < KERNEL_TABLE))
  {
    hide *;
    Initial();
    PushFree(p, regions);
    p.heapAddr := kernelEnd;
    p.heapSize := INITIAL_HEAP;
    p.AccountIs();
    p.ImageMapped();
    ok := MapHeap(p);
    if !ok {
      return;
    }
    HeapStarts(p, old(p.entries), old(p.tables));
    p.HeapIs();
    UnmapIdentity(p, kernelStart);
    p.HeapIs();
  }
}
