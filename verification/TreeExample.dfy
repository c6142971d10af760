/** A heap on which the best fit is not the smallest one. */
module TreeExample {
  import opened Bits
  import opened BinIndex
  import opened Trie
  import opened FreeLists
  import opened HeapState
  import opened TreeSearch
  import opened Bins
  import opened Chunks
  import opened HeapOps
  import opened HeapSamples
  import opened PagerOps
  import opened Malloc

  // Blocks of 24, 16 and 16 bytes, and between them free chunks of 0x120 and 0x160 bytes in one tree.
  const BLOCK: int := LO
  const SMALLER: int := LO + 24
  const BETWEEN: int := LO + 312
  const LARGER: int := LO + 328
  const LAST: int := LO + 680
  const TOP: int := LO + 696
  const TOP_SIZE: nat := 7488

  function TreeChunks(): ChunkMap {
    map[BLOCK := Chunk(24, true, true), SMALLER := Chunk(0x120, false, true), BETWEEN := Chunk(16, true, false),
        LARGER := Chunk(0x160, false, true), LAST := Chunk(16, true, false)]
  }

  function TreeWord(w: int): int {
    if w == BLOCK + HEADER then 27
    else if w == SMALLER + HEADER then 0x121
    else if w == SMALLER + 8 || w == SMALLER + 12 then SMALLER
    else if w == SMALLER + 20 then LARGER
    else if w == BETWEEN then 0x120
    else if w == BETWEEN + HEADER || w == LAST + HEADER then 18
    else if w == LARGER + HEADER then 0x161
    else if w == LARGER + 8 || w == LARGER + 12 then LARGER
    else if w == LARGER + 24 then SMALLER
    else if w == LAST then 0x160
    else if w == TOP + HEADER then TOP_SIZE + PINUSE
    else if w == TOP + TOP_SIZE then TOP_SIZE
    else 0
  }

  function TreeMem(): Mem {
    map w | LO <= w <= HI - 4 :: TreeWord(w)
  }

  function TreeHeap(): Heap {
    Heap(TreeChunks(), TOP, TOP_SIZE, LO, HI, 0, 0)
  }

  function TreeOwn(): map<int, nat> {
    map[SMALLER := 0x120, LARGER := 0x160]
  }

  function TreeLinks(): Links {
    map[(SMALLER, Next) := SMALLER, (SMALLER, Prev) := SMALLER, (SMALLER, Left) := 0, (SMALLER, Right) := LARGER,
        (SMALLER, Parent) := 0,
        (LARGER, Next) := LARGER, (LARGER, Prev) := LARGER, (LARGER, Left) := 0, (LARGER, Right) := 0,
        (LARGER, Parent) := SMALLER]
  }

  function TreeRing(): Rings {
    map[0x120 := [SMALLER], 0x160 := [LARGER]]
  }

  function TreeBin(): seq<int> {
    EmptyBins()[0 := SMALLER]
  }

  lemma ChunksAre(a: int)
    ensures a in TreeChunks() <==> a == BLOCK || a == SMALLER || a == BETWEEN || a == LARGER || a == LAST
    ensures TreeChunks()[BLOCK] == Chunk(24, true, true) && TreeChunks()[SMALLER] == Chunk(0x120, false, true)
    ensures TreeChunks()[BETWEEN] == Chunk(16, true, false) && TreeChunks()[LARGER] == Chunk(0x160, false, true)
    ensures TreeChunks()[LAST] == Chunk(16, true, false)
  {
  }

  lemma TreeTiled()
    ensures Tiled(TreeHeap())
  {
    var h := TreeHeap();
    forall a | a in h.chunks
      ensures ChunkOK(h, a) && Joined(h, a)
    {
      ChunksAre(a);
      ChunksAre(a + h.chunks[a].size);
    }
    forall a, b | a in h.chunks && b in h.chunks && a < b
      ensures a + h.chunks[a].size <= b
    {
      ChunksAre(a);
      ChunksAre(b);
    }
    ChunksAre(LO);
    hide ChunkOK, Joined;
  }

  lemma WordsAre()
    ensures forall w :: W(TreeMem(), w) == if LO <= w <= HI - 4 then TreeWord(w) else 0
  {
  }

  lemma TreeWritten()
    ensures Written(TreeMem(), TreeHeap())
  {
    var h := TreeHeap();
    forall a | a in h.chunks
      ensures ChunkAt(TreeMem(), h, a)
    {
      ChunksAre(a);
      WordsAre();
      hide TreeMem, TreeChunks;
      ChunksAre(SMALLER);
      ChunksAre(LARGER);
    }
    WordsAre();
    hide ChunkAt;
  }

  lemma Bin0(size: nat)
    requires size == 0x120 || size == 0x160 || size == 0x110
    ensures CalcTbin(size) == 0 && Root(0) == Node(7, 2) == PathNode(0x110, 7)
  {
    TwoSizesPath();
    assert Shr(size, 4) == 0x12 || Shr(size, 4) == 0x16 || Shr(size, 4) == 0x11;
    assert Shr(size, 7) == 2;
    TbinOfPrefix(size, 0);
  }

  lemma TreeStored()
    ensures Stored(TreeMem(), TreeOwn(), TreeLinks(), LO, HI)
  {
    hide TreeMem, TreeLinks, FreeHeader, Get, Offset, W;
    assert Mapped(TreeMem(), LO, HI) by {
      WordsAre();
      TreeMapped();
    }
    forall x | x in TreeOwn()
      ensures FreeHeader(TreeMem(), x, TreeOwn()[x])
    {
      HeaderWordIs(x);
    }
    forall x, f | x in TreeOwn() && HeapState.Has(TreeOwn()[x], f)
      ensures Get(TreeLinks(), x, f) == W(TreeMem(), x + HeapState.Offset(f))
    {
      LinkWord(x, f);
    }
  }

  lemma TreeMapped()
    ensures Mapped(TreeMem(), LO, HI)
  {
  }

  lemma HeaderWordIs(x: int)
    requires x in TreeOwn()
    ensures FreeHeader(TreeMem(), x, TreeOwn()[x])
  {
    WordsAre();
    Bin0(0x120);
    Bin0(0x160);
    hide CalcTbin, TreeMem;
  }

  lemma LinkWord(x: int, f: Field)
    requires x == SMALLER || x == LARGER
    ensures Get(TreeLinks(), x, f) == W(TreeMem(), x + Offset(f))
  {
    WordsAre();
    hide TreeMem;
    if x == SMALLER {
      match f
      case Next =>
      case Prev =>
      case Left =>
      case Right =>
      case Parent =>
    } else {
      match f
      case Next =>
      case Prev =>
      case Left =>
      case Right =>
      case Parent =>
    }
  }

  lemma TreeLists()
    ensures ListsOK(TreeOwn(), TreeLinks(), TreeRing(), TwoSizes())
  {
    var k, ring, t := TreeLinks(), TreeRing(), TwoSizes();
    TwoSizesShape();
    TwoSizesPath();
    hide Shr, ShapeOK;
    assert ring[0x120] == [SMALLER] && ring[0x160] == [LARGER];
    assert RingAt(k, ring[0x120]) && RingAt(k, ring[0x160]);
    assert t[Node(7, 2)] == 0x120 && t[Node(6, 5)] == 0x160;
    TreeNodes();
    hide TreeAt, TreeLinks;
  }

  lemma TreeNodes()
    ensures TreeAt(TreeLinks(), TreeRing(), TwoSizes())
  {
    var k, ring, t := TreeLinks(), TreeRing(), TwoSizes();
    assert t[Node(7, 2)] == 0x120 && t[Node(6, 5)] == 0x160;
    assert Node(6, 5).Parent() == Node(7, 2) && Node(7, 2).Right() == Node(6, 5);
    forall n | n in t
      ensures NodeAt(k, ring, t, n)
    {
      assert n == Node(7, 2) || n == Node(6, 5);
      NodeIs(n);
    }
    hide NodeAt, TreeLinks, TreeRing;
  }

  lemma NodeIs(n: Node)
    requires n == Node(7, 2) || n == Node(6, 5)
    ensures NodeAt(TreeLinks(), TreeRing(), TwoSizes(), n)
  {
    assert TwoSizes()[Node(7, 2)] == 0x120 && TwoSizes()[Node(6, 5)] == 0x160;
    assert TreeRing()[0x120] == [SMALLER] && TreeRing()[0x160] == [LARGER];
    if n == Node(7, 2) {
      assert n.Left() == Node(6, 4) && n.Right() == Node(6, 5);
    } else {
      assert n.Left() == Node(5, 10) && n.Right() == Node(5, 11) && n.Parent() == Node(7, 2);
    }
  }

  lemma OtherRoots(i: nat)
    requires i < NBINS
    ensures Root(i) in TwoSizes() <==> i == 0
  {
  }

  lemma TreeHeadsOK()
    ensures HeadsOK(TreeRing(), TwoSizes(), EmptyBins(), TreeBin(), 0, SetBit(0, 0))
  {
    EmptyMap();
    MarkFull(EmptyBins(), TreeBin(), 0, 0);
    var ring := TreeRing();
    Bin0(0x110);
    forall i | 0 <= i < NBINS
      ensures EmptyBins()[i] == if 8 * i in ring && |ring[8 * i]| > 0 then ring[8 * i][0] else 0
      ensures TreeBin()[i] == HeadOf(ring, TwoSizes(), Root(i))
    {
      OtherRoots(i);
    }
    hide MapMatches, SetBit;
  }

  lemma TreeBooks()
    ensures OwnFree(TreeOwn(), TreeChunks()) && BinnedBut(TreeOwn(), TreeChunks(), 0, 0)
  {
    forall a
      ensures a in TreeOwn() <==> a in TreeChunks() && !TreeChunks()[a].used && a != 0
    {
      ChunksAre(a);
    }
  }

  function TreeSample(): Sample {
    Sample(TreeMem(), TreeChunks(), TOP, TOP_SIZE, TreeOwn(), TreeLinks(), TreeRing(), TwoSizes(),
           EmptyBins(), TreeBin(), 0, SetBit(0, 0))
  }

  lemma TreeOK()
    ensures SampleOK(TreeSample())
  {
    TreeTiled();
    TreeWritten();
    TreeStored();
    TreeLists();
    TreeHeadsOK();
    TreeBooks();
    hide TreeMem, TreeChunks, TreeOwn, TreeLinks, TreeRing, TreeBin, Tiled, Written, Stored, ListsOK, HeadsOK;
    hide SetBit, EmptyBins, TwoSizes;
  }

  /** There a request of 0x110 bytes is given the chunk of 0x160 bytes, although the one of 0x120 bytes fits too. */
  method LargerFound(p: Pager) returns (s: KmState, r: int)
    requires FirstHeap(p)
    ensures Valid(s) && r == LARGER && s.own == map[SMALLER := 0x120, LARGER := 0x160]
  {
    hide *;
    TreeOK();
    s := Load(p, TreeSample());
    ValidBins(s);
    SampleTree(s);
    r := GetBestFit(s, 0x110, 0, 7);
    BestFitCanMiss(s.own, s.ring, r);
  }

  lemma SampleTree(s: KmState)
    requires Contains(s, TreeSample())
    ensures s.own == map[SMALLER := 0x120, LARGER := 0x160] && s.shape == TwoSizes()
    ensures Large(0x110) && CalcTbin(0x110) == 0 && TbinDepth(0) == 7 && 0 < NBINS && Root(0) == PathNode(0x110, 7)
    ensures forall x :: x in s.own && s.own[x] == 0x160 ==> x == LARGER
  {
    Bin0(0x110);
    hide TreeMem, TreeChunks, TreeLinks, TreeRing, TreeBin, SetBit, EmptyBins, TwoSizes;
  }
}
