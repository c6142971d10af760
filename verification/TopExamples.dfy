/** The two ways to a heap that the test suite's check of the headers rejects. */
module TopExamples {
  import opened Bits
  import opened BinIndex
  import opened Trie
  import opened FreeLists
  import opened HeapState
  import opened Bins
  import opened Chunks
  import opened HeapOps
  import opened HeapRun
  import opened HeapSamples
  import opened PagerOps
  import opened Free
  import opened Malloc
  import opened Realloc
  import opened Top

  /** Two blocks, the second of size bytes, and topSize bytes of top chunk behind it. */
  function FullChunks(size: nat, topSize: nat): ChunkMap
    requires size + topSize <= 4096
  {
    map[LO := Chunk(8184 - size - topSize, true, true), HI - 8 - topSize - size := Chunk(size, true, true)]
  }

  function FullWord(w: int, size: nat, topSize: nat): int
    requires size + topSize <= 4096
  {
    if w == LO + HEADER then 8184 - size - topSize + CINUSE + PINUSE
    else if w == HI - 8 - topSize - size + HEADER then size + CINUSE + PINUSE
    else if w == HI - 8 - topSize + HEADER && topSize > 0 then topSize + PINUSE
    else if w == HI - 8 then topSize
    else 0
  }

  function FullMem(size: nat, topSize: nat): Mem
    requires size + topSize <= 4096
  {
    map w | LO <= w <= HI - 4 :: FullWord(w, size, topSize)
  }

  function Full(size: nat, topSize: nat): Sample
    requires size + topSize <= 4096
  {
    Sample(FullMem(size, topSize), FullChunks(size, topSize), HI - 8 - topSize, topSize, map[], map[], map[], map[],
           EmptyBins(), EmptyBins(), 0, 0)
  }

  lemma FullOK(size: nat, topSize: nat)
    requires size + topSize <= 4096 && size % 8 == topSize % 8 == 0 && size >= MIN_CHUNK
    ensures SampleOK(Full(size, topSize))
  {
    var x := Full(size, topSize);
    var h := Heap(x.chunks, x.top, x.topSize, LO, HI, 0, 0);
    var last := HI - 8 - topSize - size;
    assert forall a :: a in h.chunks <==> a == LO || a == last;
    assert h.chunks[LO] == Chunk(last - LO, true, true) && h.chunks[last] == Chunk(size, true, true);
    assert Joined(h, LO) && Joined(h, last);
    assert forall w :: W(x.mem, w) == if LO <= w <= HI - 4 then FullWord(w, size, topSize) else 0;
    hide FullMem, FullChunks;
    assert ChunkAt(x.mem, h, LO) && ChunkAt(x.mem, h, last);
    assert HeapOK(x.mem, h);
    hide Tiled, Written;
    NoLists(x.mem);
  }

  lemma NoLists(m: Mem)
    ensures ListsOK(map[], map[], map[], map[]) && HeadsOK(map[], map[], EmptyBins(), EmptyBins(), 0, 0)
    ensures Mapped(m, LO, HI) ==> Stored(m, map[], map[], LO, HI)
  {
    EmptyMap();
    hide MapMatches;
  }

  /** A request that leaves 8 bytes of the top chunk drops them. */
  method EightBytesDropped(p: Pager) returns (s: KmState, r: int, before: bool, after: bool)
    requires FirstHeap(p)
    modifies p
    ensures Valid(s) && r != 0 && before && !after
    ensures s.topSize == 0 && s.top + 16 == s.heapStart + s.heapSize
  {
    hide *;
    Sizes();
    FullOK(16, 24);
    s := Load(p, Full(16, 24));
    FullIs(s, 16, 24);
    before := CheckHeapIntegrity(s);
    r := SplitTop(s, 16, false);
    after := CheckHeapIntegrity(s);
  }

  /** A block of 24 bytes is resized to 12 bytes, and the 8 bytes it gives up become the top chunk. */
  method EightBytesOfTop(p: Pager) returns (s: KmState, r: int, ending: Ending, before: bool, after: bool)
    requires FirstHeap(p)
    modifies p
    ensures Valid(s) && r != 0 && ending == Done && before && !after && s.topSize == 8
  {
    hide *;
    Sizes();
    FullOK(24, 0);
    s := Load(p, Full(24, 0));
    FullIs(s, 24, 0);
    before := CheckHeapIntegrity(s);
    LastGives(s);
    var ptr := 0xC011_0000 + 8160 + PAYLOAD;
    r, ending := KRealloc(s, ptr, 12);
    after := CheckHeapIntegrity(s);
  }

  lemma Sizes()
    ensures MIN_CHUNK == 16 && PAGE == 4096 && SIZE_T_LIMIT == 0x1_0000_0000
  {
  }

  lemma FullIs(s: KmState, size: nat, topSize: nat)
    requires size + topSize <= 4096 && Contains(s, Full(size, topSize))
    ensures s.topSize == topSize && s.top + topSize + 8 == s.heapStart + s.heapSize && s.heapSize == 8192
    ensures s.dvSize == 0 && s.heapStart == 0xC011_0000
  {
    hide FullMem, FullChunks, EmptyBins;
  }

  lemma LastGives(s: KmState)
    requires Contains(s, Full(24, 0))
    ensures var a := 0xC011_0000 + 8160;
            && EndingOf(s, a + PAYLOAD, 12) == Done && Pointer(s, a + PAYLOAD) && Resizes(s, s.chunks, a + PAYLOAD, 12)
            && RequestToSize(12) == 16 && GivesToTop(s, a, 16) && !Outgrows(s, a, 16)
  {
    assert FullChunks(24, 0)[LO + 8160] == Chunk(24, true, true);
    hide FullMem, EmptyBins;
  }
}
