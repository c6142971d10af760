/** Putting a particular heap of two pages into the allocator's state. */
module HeapSamples {
  import opened Bits
  import opened BinIndex
  import opened Trie
  import opened FreeLists
  import opened HeapState
  import opened Bins
  import opened Chunks
  import opened HeapOps
  import opened PagerOps
  import opened Malloc
  import opened Top

  // Where the heap of a kernel of 64 kilobytes begins and, as long as it has its first size, ends.
  const LO: int := 0xC011_0000
  const HI: int := LO + 8192

  /** A heap with no designated victim. */
  datatype Sample = Sample(mem: Mem, chunks: ChunkMap, top: int, topSize: nat, own: map<int, nat>, links: Links, ring: Rings,
                           shape: Shape, sbin: seq<int>, tbin: seq<int>, sbinmap: nat, tbinmap: nat)

  ghost predicate SampleOK(x: Sample) {
    && HeapOK(x.mem, Heap(x.chunks, x.top, x.topSize, LO, HI, 0, 0))
    && OwnFree(x.own, x.chunks) && BinnedBut(x.own, x.chunks, 0, 0)
    && Stored(x.mem, x.own, x.links, LO, HI) && ListsOK(x.own, x.links, x.ring, x.shape)
    && HeadsOK(x.ring, x.shape, x.sbin, x.tbin, x.sbinmap, x.tbinmap)
  }

  /** The pager has its first heap there. */
  ghost predicate FirstHeap(p: Pager)
    reads p
  {
    PagerOK(p, LO, p.Account()) && p.heapSize == HI - LO
  }

  ghost predicate Contains(s: KmState, x: Sample)
    reads s`mem, s`heapStart, s`heapSize, s`chunks, s`top, s`topSize, s`dv, s`dvSize, s`own, s`links, s`ring, s`shape, s`tbin
  {
    && s.mem == x.mem && s.heapStart == LO && s.heapSize == HI - LO && s.chunks == x.chunks
    && s.top == x.top && s.topSize == x.topSize && s.dv == 0 && s.dvSize == 0
    && s.own == x.own && s.links == x.links && s.ring == x.ring && s.shape == x.shape && s.tbin == x.tbin
  }

  lemma ContainsIs(s: KmState, x: Sample)
    ensures Contains(s, x) <==>
              && s.mem == x.mem && s.heapStart == LO && s.heapSize == HI - LO && s.chunks == x.chunks
              && s.top == x.top && s.topSize == x.topSize && s.dv == 0 && s.dvSize == 0
              && s.own == x.own && s.links == x.links && s.ring == x.ring && s.shape == x.shape && s.tbin == x.tbin
  {
  }

  method FillHeap(s: KmState, x: Sample)
    modifies s`heapStart, s`heapSize, s`initialHeapSize, s`dv, s`dvSize, s`top, s`topSize, s`chunks, s`frames
    ensures s.heapStart == LO && s.heapSize == 8192 && s.initialHeapSize == 8192 && s.dv == 0 && s.dvSize == 0
    ensures s.top == x.top && s.topSize == x.topSize && s.chunks == x.chunks && s.frames == s.pager.Account()
  {
    hide *;
    s.heapStart, s.heapSize, s.initialHeapSize := LO, 8192, 8192;
    s.dv, s.dvSize, s.top, s.topSize, s.chunks := 0, 0, x.top, x.topSize, x.chunks;
    s.frames := s.pager.Account();
  }

  method FillLists(s: KmState, x: Sample)
    modifies s`sbin, s`tbin, s`sbinmap, s`tbinmap, s`own, s`links, s`ring, s`shape
    ensures s.sbin == x.sbin && s.tbin == x.tbin && s.sbinmap == x.sbinmap && s.tbinmap == x.tbinmap
    ensures s.own == x.own && s.links == x.links && s.ring == x.ring && s.shape == x.shape
  {
    hide *;
    s.sbin, s.tbin, s.sbinmap, s.tbinmap := x.sbin, x.tbin, x.sbinmap, x.tbinmap;
    s.own, s.links, s.ring, s.shape := x.own, x.links, x.ring, x.shape;
  }

  method Load(p: Pager, x: Sample) returns (s: KmState)
    requires FirstHeap(p) && SampleOK(x)
    ensures fresh(s) && s.pager == p && Valid(s) && Contains(s, x)
  {
    hide *;
    s := new KmState(p, x.mem);
    Places(p);
    FillHeap(s, x);
    FillLists(s, x);
    SampleIs(x);
    FoldBinsBy(s);
    FoldSizes(s);
    NoVictim(x.chunks);
    FoldValid(s);
    ContainsIs(s, x);
  }

  lemma Places(p: Pager)
    requires FirstHeap(p)
    ensures PagerOK(p, LO, p.Account()) && p.heapSize == 8192 && HI - LO == 8192 && SizesOK(8192, 8192, 8192)
  {
  }

  lemma SampleIs(x: Sample)
    requires SampleOK(x)
    ensures HeapOK(x.mem, Heap(x.chunks, x.top, x.topSize, LO, LO + 8192, 0, 0))
    ensures OwnFree(x.own, x.chunks) && BinnedBut(x.own, x.chunks, 0, 0)
    ensures Stored(x.mem, x.own, x.links, LO, LO + 8192) && ListsOK(x.own, x.links, x.ring, x.shape)
    ensures HeadsOK(x.ring, x.shape, x.sbin, x.tbin, x.sbinmap, x.tbinmap)
  {
    hide HeapOK, OwnFree, BinnedBut, Stored, ListsOK, HeadsOK;
  }

  lemma NoVictim(cs: ChunkMap)
    ensures VictimOK(cs, 0, 0)
  {
  }

  lemma EmptyMap()
    ensures MapMatches(EmptyBins(), 0)
  {
    forall i: nat
      ensures !Bit(0, i)
    {
      ShrZero(i);
    }
  }
}
