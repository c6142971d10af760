/** What the blocks in use say about the rest of the heap: between them everything is one free chunk, behind the last one is the
    top chunk. */
module HeapLayout {
  import opened Chunks
  import opened HeapState

  /** A chunk or the top chunk begins at x in both heaps, and up to there they have the same chunks. */
  ghost predicate SameBelow(h: Heap, g: Heap, x: int) {
    && h.lo <= x <= h.top && x <= g.top && (x == h.top || x in h.chunks) && (x == g.top || x in g.chunks)
    && (forall a :: a < x ==> (a in h.chunks <==> a in g.chunks))
    && (forall a :: a < x && a in h.chunks && a in g.chunks ==> SameChunk(h.chunks[a], g.chunks[a]))
  }

  predicate SameChunk(c: Chunk, d: Chunk) {
    c.used == d.used && c.size == d.size
  }

  ghost predicate SameBlocks(h: Heap, g: Heap) {
    h.holeSize == 0 && g.holeSize == 0 && h.lo == g.lo && Live(h.chunks) == Live(g.chunks)
  }

  lemma UsedInBoth(h: Heap, g: Heap, a: int)
    requires SameBlocks(h, g) && a in h.chunks && h.chunks[a].used
    ensures a in g.chunks && g.chunks[a].used && g.chunks[a].size == h.chunks[a].size
  {
    assert a in Live(h.chunks) && Live(h.chunks)[a] == h.chunks[a].size;
    assert a in Live(g.chunks) && Live(g.chunks)[a] == g.chunks[a].size;
  }

  /** Behind a free chunk there is a block. */
  lemma BlockBehind(h: Heap, a: int)
    requires Tiled(h) && h.holeSize == 0 && a in h.chunks && !h.chunks[a].used
    ensures a + h.chunks[a].size in h.chunks && h.chunks[a + h.chunks[a].size].used && h.chunks[a].size > 0
  {
    ChunkFacts(h, a);
    FreeHasNext(h, a);
    ChunkFacts(h, a + h.chunks[a].size);
    hide Tiled;
  }

  /** A free chunk of one heap is not larger than that of the other at the same place. */
  lemma NotLarger(h: Heap, g: Heap, x: int)
    requires Tiled(h) && Tiled(g) && SameBlocks(h, g) && x in h.chunks && x in g.chunks && !h.chunks[x].used && !g.chunks[x].used
    ensures g.chunks[x].size <= h.chunks[x].size
  {
    hide *;
    Holes(h, g);
    BlockBehind(h, x);
    var e := x + h.chunks[x].size;
    UsedInBoth(h, g, e);
    ApartChunks(g, x, e);
  }

  lemma Holes(h: Heap, g: Heap)
    requires SameBlocks(h, g)
    ensures h.holeSize == 0 && g.holeSize == 0 && h.lo == g.lo && Live(h.chunks) == Live(g.chunks) && SameBlocks(g, h)
  {
    hide Live;
  }

  /** The chunks of both heaps at x are the same. */
  lemma SameAt(h: Heap, g: Heap, x: int)
    requires Tiled(h) && Tiled(g) && SameBlocks(h, g) && x in h.chunks && x in g.chunks
    ensures SameChunk(h.chunks[x], g.chunks[x])
  {
    hide *;
    Holes(h, g);
    if h.chunks[x].used {
      UsedInBoth(h, g, x);
    } else if g.chunks[x].used {
      UsedInBoth(g, h, x);
    } else {
      NotLarger(h, g, x);
      NotLarger(g, h, x);
    }
    SameIs(h.chunks[x], g.chunks[x]);
  }

  lemma SameIs(c: Chunk, d: Chunk)
    ensures SameChunk(c, d) <==> c.used == d.used && c.size == d.size
  {
  }

  /** Where one heap has its top chunk the other has no chunk. */
  lemma NothingBehind(h: Heap, g: Heap, x: int)
    requires Tiled(h) && Tiled(g) && SameBlocks(h, g) && x == h.top
    ensures x !in g.chunks
  {
    hide *;
    Holes(h, g);
    AllBelowTop(h);
    if x in g.chunks {
      if g.chunks[x].used {
        UsedInBoth(g, h, x);
      } else {
        BlockBehind(g, x);
        UsedInBoth(g, h, x + g.chunks[x].size);
        assert false;
      }
    }
  }

  /** Same chunks, apart from the flag, and same top chunk. */
  ghost predicate SameLayout(h: Heap, g: Heap) {
    && h.top == g.top && h.chunks.Keys == g.chunks.Keys
    && forall a :: a in h.chunks && a in g.chunks ==> SameChunk(h.chunks[a], g.chunks[a])
  }

  lemma BelowIs(h: Heap, g: Heap, x: int)
    requires SameBelow(h, g, x)
    ensures h.lo <= x <= h.top && x <= g.top && (x == h.top || x in h.chunks) && (x == g.top || x in g.chunks)
  {
  }

  lemma LayoutEnds(h: Heap, g: Heap, x: int)
    requires SameBelow(h, g, x) && x == h.top == g.top && Tiled(h) && Tiled(g)
    ensures SameLayout(h, g)
  {
    AllBelowTop(h);
    AllBelowTop(g);
    hide Tiled, SameChunk;
    forall a
      ensures a in h.chunks <==> a in g.chunks
    {
      assert a in h.chunks ==> a < x;
      assert a in g.chunks ==> a < x;
    }
  }

  lemma BelowNext(h: Heap, g: Heap, x: int)
    requires SameBelow(h, g, x) && Tiled(h) && Tiled(g) && h.holeSize == 0 && g.holeSize == 0 && x in h.chunks && x in g.chunks
    requires SameChunk(h.chunks[x], g.chunks[x])
    ensures SameBelow(h, g, x + h.chunks[x].size) && h.chunks[x].size > 0
  {
    hide Tiled;
    NextOf(h, x);
    NextOf(g, x);
    AllBelowTop(h);
    forall a | x < a < x + h.chunks[x].size
      ensures a !in h.chunks && a !in g.chunks
    {
      if a in h.chunks {
        ApartChunks(h, x, a);
      }
      if a in g.chunks {
        ApartChunks(g, x, a);
      }
    }
  }

  lemma {:induction false} SameFrom(h: Heap, g: Heap, x: int)
    requires Tiled(h) && Tiled(g) && SameBlocks(h, g) && SameBelow(h, g, x)
    ensures SameLayout(h, g)
    decreases h.top - x
  {
    hide *;
    Holes(h, g);
    BelowIs(h, g, x);
    if x == h.top {
      NothingBehind(h, g, x);
      LayoutEnds(h, g, x);
    } else {
      if x == g.top {
        NothingBehind(g, h, x);
      }
      SameAt(h, g, x);
      BelowNext(h, g, x);
      BelowIs(h, g, x + h.chunks[x].size);
      SameFrom(h, g, x + h.chunks[x].size);
    }
  }

  lemma BelowStart(h: Heap, g: Heap)
    requires Tiled(h) && Tiled(g) && h.holeSize == 0 && g.holeSize == 0 && h.lo == g.lo
    ensures SameBelow(h, g, h.lo)
  {
    FirstBoundary(h);
    FirstBoundary(g);
    BoundsOf(h);
    BoundsOf(g);
    forall a | a < h.lo
      ensures a !in h.chunks && a !in g.chunks
    {
      if a in h.chunks {
        ChunkFacts(h, a);
      }
      if a in g.chunks {
        ChunkFacts(g, a);
      }
    }
    hide Tiled;
  }

  /** Heaps that begin at the same place and have the same blocks in use have the same free chunks and the same top chunk. */
  lemma LayoutByBlocks(h: Heap, g: Heap)
    requires Tiled(h) && Tiled(g) && SameBlocks(h, g)
    ensures SameLayout(h, g)
  {
    hide *;
    Holes(h, g);
    BelowStart(h, g);
    SameFrom(h, g, h.lo);
  }
}
