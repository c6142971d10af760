/** A heap on which krealloc goes wrong. */
module HeapExamples {
  import opened Bits
  import opened BinIndex
  import opened Trie
  import opened FreeLists
  import opened HeapState
  import opened Bins
  import opened Chunks
  import opened HeapOps
  import opened HeapSamples
  import opened PagerOps
  import opened Free
  import opened Malloc
  import opened Realloc
  import opened Spoiled

  // Blocks of 24, 16 and 16 bytes, and between them two free chunks of 64 bytes in one ring.
  const BLOCK: int := LO
  const FIRST: int := LO + 24
  const BETWEEN: int := LO + 88
  const SECOND: int := LO + 104
  const LAST: int := LO + 168
  const TOP: int := LO + 184
  const TOP_SIZE: nat := 8000

  function ExampleChunks(): ChunkMap {
    map[BLOCK := Chunk(24, true, true), FIRST := Chunk(64, false, true), BETWEEN := Chunk(16, true, false),
        SECOND := Chunk(64, false, true), LAST := Chunk(16, true, false)]
  }

  function ExampleWord(w: int): int {
    if w == BLOCK + HEADER then 27
    else if w == FIRST + HEADER || w == SECOND + HEADER then 65
    else if w == FIRST + 8 || w == FIRST + 12 then SECOND
    else if w == SECOND + 8 || w == SECOND + 12 then FIRST
    else if w == BETWEEN || w == LAST then 64
    else if w == BETWEEN + HEADER || w == LAST + HEADER then 18
    else if w == TOP + HEADER then TOP_SIZE + PINUSE
    else if w == TOP + TOP_SIZE then TOP_SIZE
    else 0
  }

  function ExampleMem(): Mem {
    map w | LO <= w <= HI - 4 :: ExampleWord(w)
  }

  function ExampleHeap(): Heap {
    Heap(ExampleChunks(), TOP, TOP_SIZE, LO, HI, 0, 0)
  }

  function ExampleOwn(): map<int, nat> {
    map[FIRST := 64, SECOND := 64]
  }

  function ExampleLinks(): Links {
    map[(FIRST, Next) := SECOND, (FIRST, Prev) := SECOND, (SECOND, Next) := FIRST, (SECOND, Prev) := FIRST]
  }

  function ExampleRing(): Rings {
    map[64 := [FIRST, SECOND]]
  }

  function ExampleBins(): seq<int> {
    EmptyBins()[8 := FIRST]
  }

  lemma ChunksAre(a: int)
    ensures a in ExampleChunks() <==> a == BLOCK || a == FIRST || a == BETWEEN || a == SECOND || a == LAST
    ensures ExampleChunks()[BLOCK] == Chunk(24, true, true) && ExampleChunks()[FIRST] == Chunk(64, false, true)
    ensures ExampleChunks()[BETWEEN] == Chunk(16, true, false) && ExampleChunks()[SECOND] == Chunk(64, false, true)
    ensures ExampleChunks()[LAST] == Chunk(16, true, false)
  {
  }

  lemma ExampleTiled()
    ensures Tiled(ExampleHeap())
  {
    var h := ExampleHeap();
    forall a | a in h.chunks
      ensures ChunkOK(h, a) && Joined(h, a)
    {
      ChunksAre(a);
      ChunksAre(a + h.chunks[a].size);
    }
    forall a, b | a in h.chunks && b in h.chunks && a < b
      ensures a + h.chunks[a].size <= b
    {
      ChunksAre(a);
      ChunksAre(b);
    }
    ChunksAre(LO);
    hide ChunkOK, Joined;
  }

  lemma ExampleWritten()
    ensures Written(ExampleMem(), ExampleHeap())
  {
    var h := ExampleHeap();
    forall a | a in h.chunks
      ensures ChunkAt(ExampleMem(), h, a)
    {
      ChunksAre(a);
      WordsAre();
      hide ExampleMem, ExampleChunks;
      ChunksAre(FIRST);
      ChunksAre(SECOND);
    }
    WordsAre();
    hide ChunkAt;
  }

  lemma WordsAre()
    ensures forall w :: W(ExampleMem(), w) == if LO <= w <= HI - 4 then ExampleWord(w) else 0
  {
  }

  lemma ExampleStored()
    ensures Stored(ExampleMem(), ExampleOwn(), ExampleLinks(), LO, HI)
  {
    WordsAre();
    forall x, f | x in ExampleOwn() && HeapState.Has(ExampleOwn()[x], f)
      ensures Get(ExampleLinks(), x, f) == W(ExampleMem(), x + Offset(f))
    {
      assert f == Next || f == Prev;
    }
    hide CalcTbin;
  }

  lemma ExampleLists()
    ensures ListsOK(ExampleOwn(), ExampleLinks(), ExampleRing(), map[])
  {
    var xs := ExampleRing()[64];
    assert xs == [FIRST, SECOND];
    assert RingAt(ExampleLinks(), xs);
  }

  lemma ExampleHeads()
    ensures HeadsOK(ExampleRing(), map[], ExampleBins(), EmptyBins(), SetBit(0, 8), 0)
  {
    EmptyMap();
    MarkFull(EmptyBins(), ExampleBins(), 0, 8);
    var ring := ExampleRing();
    forall i | 0 <= i < NBINS
      ensures ExampleBins()[i] == if 8 * i in ring && |ring[8 * i]| > 0 then ring[8 * i][0] else 0
    {
    }
    hide MapMatches, SetBit;
  }

  lemma ExampleBooks()
    ensures OwnFree(ExampleOwn(), ExampleChunks()) && BinnedBut(ExampleOwn(), ExampleChunks(), 0, 0)
  {
    forall a
      ensures a in ExampleOwn() <==> a in ExampleChunks() && !ExampleChunks()[a].used && a != 0
    {
      ChunksAre(a);
    }
  }

  function Example(): Sample {
    Sample(ExampleMem(), ExampleChunks(), TOP, TOP_SIZE, ExampleOwn(), ExampleLinks(), ExampleRing(), map[],
           ExampleBins(), EmptyBins(), SetBit(0, 8), 0)
  }

  lemma ExampleOK()
    ensures SampleOK(Example())
  {
    ExampleTiled();
    ExampleWritten();
    ExampleStored();
    ExampleLists();
    ExampleHeads();
    ExampleBooks();
    hide ExampleMem, ExampleChunks, ExampleOwn, ExampleLinks, ExampleRing, ExampleBins, Tiled, Written, Stored, ListsOK, HeadsOK;
    hide SetBit, EmptyBins;
  }

  lemma ExampleStrikes(s: KmState)
    requires Contains(s, Example())
    ensures EndingOf(s, BLOCK + PAYLOAD, 28) == Struck && Pointer(s, BLOCK + PAYLOAD) && 28 < SIZE_T_LIMIT
  {
    ChunksAre(BLOCK);
    hide ExampleMem, ExampleRing, ExampleBins, SetBit, EmptyBins;
  }

  /** That heap is well formed, and a request for 28 bytes instead of 20 in its first block follows the new header of the
      second chunk as if it were the prev link of the first one. */
  method GrowingGoesWrong(p: Pager) returns (s: KmState, ending: Ending)
    requires FirstHeap(p)
    modifies p
    ensures ending == Struck
  {
    hide *;
    ExampleOK();
    s := Load(p, Example());
    ExampleStrikes(s);
    var r;
    r, ending := KRealloc(s, BLOCK + PAYLOAD, 28);
  }
}
