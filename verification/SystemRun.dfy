/** The kernel's memory from the boot loader's map to any run of the allocator on top of the pager. */
module SystemRun {
  import opened BootMap
  import opened BootPaging
  import opened HeapOps
  import opened HeapPages
  import opened MemoryMap
  import opened PagerOps
  import opened PagerRun
  import HeapState
  import HeapRun
  import Malloc
  import Paging
  import Sweep

  /** The kernel's frames besides the free ones: the page directory and two page tables. */
  ghost function AllFrames(es: seq<Entry>, pd: int, kernelTable: int, stackTable: int): set<int> {
    {pd, kernelTable, stackTable} + FreePages(es)
  }

  /** What the pages of a new heap happen to hold. */
  function Words(junk: HeapState.Mem, start: int, end: int): HeapState.Mem {
    map w | start <= w < end :: HeapState.W(junk, w)
  }

  lemma WordsMapped(junk: HeapState.Mem, start: int, end: int)
    ensures HeapState.Mapped(Words(junk, start, end), start, end)
  {
  }

  lemma HeapReady(p: Pager, start: int, kernelEnd: nat, frames: set<int>)
    requires p.HeapOK() && p.heapAddr == start == kernelEnd + 0xC000_0000 && p.heapSize == INITIAL_HEAP
    requires p.Account() == frames && |frames| <= MEMORY_FRAMES && kernelEnd <= 0x40_0000 && kernelEnd % 4096 == 0
    ensures start != 0 && Malloc.HeapArgs(start, INITIAL_HEAP) && PagerOK(p, start, p.Account())
  {
    hide Pager.HeapOK, Pager.Account;
  }

  lemma FramesAre(es: seq<Entry>, pd: int, kernelTable: int, stackTable: int, frames: set<int>)
    requires forall f :: f in frames <==> f == pd || f == kernelTable || f == stackTable || f in FreePages(es)
    ensures frames == AllFrames(es, pd, kernelTable, stackTable)
  {
  }

  lemma KernelEnds(pd: int, kernelTable: int, stackTable: int, kernelStart: int, kernelEnd: int)
    requires InKernel(pd, kernelTable, stackTable, kernelStart, kernelEnd)
    ensures kernelStart < kernelEnd <= 0x40_0000 && kernelEnd % 4096 == 0
  {
  }

  /** On a machine of at most 16 megabytes with frames for the first heap: whatever clients then request, each request is
      served as in HeapRun.Run, up to the first on which the allocator goes wrong, if there is one; and the frames are
      those that the kernel takes to be free by the boot loader's map (PagerRun.FreePagesTrue) and its own three. */
  method Run(bootmap: seq<Entry>, kernelStart: Word, kernelEnd: Word, m: Paging.PhysMem, pd: int, kernelTable: int,
             stackTable: int, junk: HeapState.Mem, requests: seq<HeapRun.Request>)
    returns (outcome: Outcome, s: HeapState.KmState, served: nat, blocks: set<int>, ghost words: map<(int, int), int>,
             ghost trace: HeapRun.Trace)
    requires BootPages(m, pd, kernelTable, stackTable, kernelEnd)
    requires InKernel(pd, kernelTable, stackTable, kernelStart, kernelEnd)
    requires var es := bootmap + [KernelEntry(kernelStart, kernelEnd)];
             && NoFreeStart(es)
             && |AllFrames(es, pd, kernelTable, stackTable)| <= MEMORY_FRAMES
    ensures outcome == Running <==>
              && KeptCount(bootmap) <= 64
              && |FreePages(bootmap + [KernelEntry(kernelStart, kernelEnd)])| >= FramesNeeded(kernelEnd)
    ensures outcome == Running ==>
              && served <= |requests| && HeapRun.Follows(trace, requests[..served])
              && HeapRun.Begins(trace.moments[0], kernelEnd + 0xC000_0000, INITIAL_HEAP)
              && (served < |requests| ==>
                    var m := trace.moments[served];
                    HeapRun.Admissible(m.look.mem, requests[served], m.blocks) && HeapRun.GoesWrong(m.look, requests[served]))
    ensures outcome == Running && served == |requests| ==>
              && trace.moments[served] == HeapRun.Moment(HeapRun.LookOf(s), blocks, words)
              && HeapRun.Client(s, blocks, words) && s.aborts == 0
              && s.heapStart == s.pager.heapAddr && s.heapSize == s.pager.heapSize && s.pager.HeapOK()
              && s.pager.Account() == AllFrames(bootmap + [KernelEntry(kernelStart, kernelEnd)], pd, kernelTable, stackTable)
  {
    hide *;
    KernelEnds(pd, kernelTable, stackTable, kernelStart, kernelEnd);
    var p;
    outcome, p := StartMemory(bootmap, kernelStart, kernelEnd, m, pd, kernelTable, stackTable);
    served, blocks, words, trace := 0, {}, map[], HeapRun.Trace([], [], []);
    if outcome != Running {
      s := new HeapState.KmState(p, map[]);
      return;
    }
    FramesAre(bootmap + [KernelEntry(kernelStart, kernelEnd)], pd, kernelTable, stackTable, p.Account());
    var start := kernelEnd + 0xC000_0000;
    HeapReady(p, start, kernelEnd, p.Account());
    WordsMapped(junk, start, start + INITIAL_HEAP);
    s := new HeapState.KmState(p, Words(junk, start, start + INITIAL_HEAP));
    served, blocks, words, trace := HeapRun.Run(s, start, INITIAL_HEAP, requests);
  }
}
