/**
 The chunks of the heap.  They tile the heap from its start up to the top chunk; between two steps of a
 deallocation there may be one hole, a region that is free but not a chunk yet.
 */
module Chunks {
  import opened BinIndex
  import opened HeapState

  /** What the header of a chunk says. */
  function HeaderWord(c: Chunk): nat {
    c.size + (if c.used then CINUSE else 0) + if c.pinuse then PINUSE else 0
  }

  /** The heap from lo to hi: its chunks, the designated victim (or 0), the top chunk, and the hole at
      hole of holeSize bytes (0 if there is none). */
  datatype Heap = Heap(chunks: ChunkMap, top: int, topSize: nat, lo: int, hi: int, hole: int, holeSize: nat)

  ghost predicate Bounds(h: Heap) {
    && 0 < h.lo && h.lo % 8 == 0 && h.hi <= h.lo + SIZE_LIMIT
    && h.lo <= h.top && h.top % 8 == 0 && h.topSize % 8 == 0
    && h.top + h.topSize + 8 <= h.hi
  }

  ghost predicate ChunkOK(h: Heap, a: int)
    requires a in h.chunks
  {
    var c := h.chunks[a];
    a % 8 == 0 && h.lo <= a && c.size >= MIN_CHUNK && c.size % 8 == 0 && a + c.size <= h.top
  }

  ghost predicate Disjoint(cs: ChunkMap) {
    forall a, b :: a in cs && b in cs && a < b ==> a + cs[a].size <= b
  }

  /** The place where a chunk or the hole ends: another one begins there, or the top chunk. */
  ghost predicate Boundary(h: Heap, e: int) {
    e == h.top || e in h.chunks || (h.holeSize > 0 && e == h.hole)
  }

  ghost predicate HoleOK(h: Heap) {
    h.holeSize > 0 ==>
      && h.hole % 8 == 0 && h.holeSize % 8 == 0 && h.lo <= h.hole && h.hole + h.holeSize <= h.top
      && (forall a :: a in h.chunks ==> a + h.chunks[a].size <= h.hole || h.hole + h.holeSize <= a)
      && (h.hole + h.holeSize == h.top || h.hole + h.holeSize in h.chunks)
      && (h.hole + h.holeSize in h.chunks ==> h.chunks[h.hole + h.holeSize].pinuse)
  }

  /** Behind chunk a comes a chunk, the hole or the top chunk.  PINUSE of a chunk is CINUSE of the one before
      it, no two free chunks touch, and the top chunk and the hole follow a chunk in use. */
  ghost predicate Joined(h: Heap, a: int)
    requires a in h.chunks
  {
    var c, e := h.chunks[a], a + h.chunks[a].size;
    && Boundary(h, e)
    && (e in h.chunks ==> h.chunks[e].pinuse == c.used)
    && (e == h.top || (h.holeSize > 0 && e == h.hole) ==> c.used)
    && (!c.used ==> c.pinuse)
  }

  /** The chunks, the hole and the top chunk tile the heap. */
  ghost predicate Tiled(h: Heap) {
    && Bounds(h)
    && (forall a :: a in h.chunks ==> ChunkOK(h, a))
    && Disjoint(h.chunks)
    && HoleOK(h)
    && Boundary(h, h.lo) && (h.lo in h.chunks ==> h.chunks[h.lo].pinuse)
    && (forall a {:trigger Joined(h, a)} :: a in h.chunks ==> Joined(h, a))
  }

  ghost predicate ChunkAt(m: Mem, h: Heap, a: int)
    requires a in h.chunks
  {
    var c := h.chunks[a];
    && W(m, a + HEADER) == HeaderWord(c)
    && (!c.used ==> W(m, a + c.size) == c.size)
    && (!c.pinuse ==> PrevByFooter(m, h, a))
  }

  /** The footer before a leads to the start of the free chunk in front of a. */
  ghost predicate PrevByFooter(m: Mem, h: Heap, a: int) {
    var p := a - W(m, a);
    p in h.chunks && !h.chunks[p].used && h.chunks[p].size == W(m, a)
  }

  ghost predicate TopAt(m: Mem, h: Heap) {
    && (h.topSize > 0 ==> W(m, h.top + HEADER) == h.topSize + PINUSE && W(m, h.top + h.topSize) == h.topSize)
    && W(m, h.top + h.topSize + HEADER) == 0
  }

  /** Headers and footers in memory describe the chunks; the dummy header behind the top chunk is 0. */
  ghost predicate Written(m: Mem, h: Heap) {
    && Mapped(m, h.lo, h.hi)
    && (forall a {:trigger ChunkAt(m, h, a)} :: a in h.chunks ==> ChunkAt(m, h, a))
    && TopAt(m, h)
  }

  /** A well-formed heap. */
  ghost predicate HeapOK(m: Mem, h: Heap) {
    Tiled(h) && Written(m, h)
  }

  // ----- live blocks

  /** The block of chunk a, including the borrowed footer word of the next chunk, is as it was. */
  ghost predicate BlockKept(m: Mem, m': Mem, a: int, size: nat) {
    forall w :: a + PAYLOAD <= w <= a + size ==> W(m', w) == W(m, w)
  }

  /** Chunks in use, except x, are still in use with the same size and contents. */
  ghost predicate LiveKept(m: Mem, cs: ChunkMap, m': Mem, cs': ChunkMap, x: int) {
    forall a :: a in cs && cs[a].used && a != x ==>
      a in cs' && cs'[a].used && cs'[a].size == cs[a].size && BlockKept(m, m', a, cs[a].size)
  }

  // ----- the free lists hold free chunks only

  /** Binned chunks are among the free chunks. */
  ghost predicate OwnFree(own: map<int, nat>, cs: ChunkMap) {
    forall a :: a in own ==> a in cs && !cs[a].used && own[a] == cs[a].size
  }

  /** Rewriting payload words of binned chunks changes no header, footer or live block. */
  lemma KeptByBins(m: Mem, m': Mem, h: Heap, own: map<int, nat>)
    requires HeapOK(m, h) && OwnFree(own, h.chunks) && KeptOutside(m, m', own)
    ensures HeapOK(m', h) && LiveKept(m, h.chunks, m', h.chunks, 0)
  {
    forall a | a in h.chunks
      ensures ChunkAt(m', h, a)
    {
      assert ChunkAt(m, h, a) && ChunkOK(h, a);
      OutsideChunks(h, own, a);
    }
    assert TopAt(m', h) by {
      OutsideTop(h, own);
    }
    forall a | a in h.chunks && h.chunks[a].used
      ensures BlockKept(m, m', a, h.chunks[a].size)
    {
      assert ChunkOK(h, a);
      OutsideBlock(h, own, a);
    }
  }

  lemma OutsideChunks(h: Heap, own: map<int, nat>, a: int)
    requires Tiled(h) && OwnFree(own, h.chunks) && a in h.chunks
    ensures Outside(own, a + HEADER) && Outside(own, a) && Outside(own, a + h.chunks[a].size)
  {
    assert ChunkOK(h, a);
    assert forall x :: x in own ==> x in h.chunks && own[x] == h.chunks[x].size;
  }

  lemma OutsideTop(h: Heap, own: map<int, nat>)
    requires Tiled(h) && OwnFree(own, h.chunks)
    ensures forall w :: w >= h.top ==> Outside(own, w)
  {
    forall x | x in own
      ensures x + own[x] <= h.top
    {
      assert ChunkOK(h, x);
    }
  }

  lemma OutsideBlock(h: Heap, own: map<int, nat>, a: int)
    requires Tiled(h) && OwnFree(own, h.chunks) && a in h.chunks && h.chunks[a].used
    ensures forall w :: a + PAYLOAD <= w <= a + h.chunks[a].size ==> Outside(own, w)
  {
    forall w | a + PAYLOAD <= w <= a + h.chunks[a].size
      ensures Outside(own, w)
    {
      forall x | x in own
        ensures w < x + PAYLOAD || x + own[x] <= w
      {
        assert x in h.chunks && x != a && ChunkOK(h, a);
      }
    }
  }

  // ----- flags

  predicate InUse(word: int) {
    word / 2 % 2 == 1
  }

  predicate PrevInUse(word: int) {
    word % 2 == 1
  }

  /** word | CINUSE */
  function OrCinuse(word: int): int {
    if InUse(word) then word else word + CINUSE
  }

  /** word | PINUSE */
  function OrPinuse(word: int): int {
    if PrevInUse(word) then word else word + PINUSE
  }

  /** word & ~PINUSE */
  function AndNotPinuse(word: int): int {
    if PrevInUse(word) then word - PINUSE else word
  }

  function SizeOf(word: int): int {
    word / 8 * 8
  }

  lemma Flags(c: Chunk)
    requires c.size % 8 == 0
    ensures var w := HeaderWord(c);
            && InUse(w) == c.used && PrevInUse(w) == c.pinuse && SizeOf(w) == c.size
            && OrCinuse(w) == HeaderWord(c.(used := true))
            && OrPinuse(w) == HeaderWord(c.(pinuse := true))
            && AndNotPinuse(w) == HeaderWord(c.(pinuse := false))
  {
    FlagBits(c.size / 8, if c.used then 1 else 0, if c.pinuse then 1 else 0);
  }

  /** The header of a chunk in use, given a new size. */
  lemma Resized(c: Chunk, n: nat)
    requires c.size % 8 == 0 && c.used
    ensures HeaderWord(c.(size := n)) == n + CINUSE + HeaderWord(c) % 2
  {
    FlagBits(c.size / 8, 1, if c.pinuse then 1 else 0);
  }

  lemma FlagBits(q: nat, used: nat, pinuse: nat)
    requires used <= 1 && pinuse <= 1
    ensures var w := 8 * q + 2 * used + pinuse;
            (w / 2 % 2 == 1 <==> used == 1) && (w % 2 == 1 <==> pinuse == 1) && w / 8 * 8 == 8 * q
  {
    var w := 8 * q + 2 * used + pinuse;
    assert w / 2 == 4 * q + used;
    assert w / 8 == q;
  }

  // ----- taking a free chunk

  /** Free chunk a is handed out as a whole. */
  function UseWhole(h: Heap, a: int): Heap
    requires a in h.chunks && a + h.chunks[a].size in h.chunks
  {
    var e := a + h.chunks[a].size;
    h.(chunks := h.chunks[a := h.chunks[a].(used := true)][e := h.chunks[e].(pinuse := true)])
  }

  lemma FreeHasNext(h: Heap, a: int)
    requires Tiled(h) && a in h.chunks && !h.chunks[a].used
    ensures a + h.chunks[a].size in h.chunks && h.chunks[a].pinuse
    ensures h.chunks[a + h.chunks[a].size].used && !h.chunks[a + h.chunks[a].size].pinuse
  {
    assert Joined(h, a);
    var e := a + h.chunks[a].size;
    assert Joined(h, e);
  }

  /** Two chunks do not overlap. */
  lemma ApartChunks(h: Heap, a: int, b: int)
    requires Tiled(h) && a in h.chunks && b in h.chunks && a != b
    ensures a + h.chunks[a].size <= b || b + h.chunks[b].size <= a
    ensures h.chunks[a].size >= MIN_CHUNK && h.chunks[b].size >= MIN_CHUNK
    ensures a % 8 == 0 && b % 8 == 0 && h.chunks[a].size % 8 == 0 && h.chunks[b].size % 8 == 0
  {
    assert ChunkOK(h, a) && ChunkOK(h, b);
  }

  /** The facts about one chunk. */
  lemma ChunkFacts(h: Heap, a: int)
    requires Tiled(h) && a in h.chunks
    ensures ChunkOK(h, a) && Joined(h, a)
    ensures 0 < h.lo <= a && a + h.chunks[a].size <= h.top && h.top + h.topSize + 8 <= h.hi
  {
  }

  /** Chunks with the same addresses and sizes. */
  ghost predicate SameSizes(cs: ChunkMap, cs': ChunkMap) {
    cs'.Keys == cs.Keys && forall a :: a in cs ==> cs'[a].size == cs[a].size
  }

  /** Changing flags only: what is left to check is how the chunks join. */
  lemma RetiledSame(h: Heap, h': Heap)
    requires Tiled(h) && h' == h.(chunks := h'.chunks) && SameSizes(h.chunks, h'.chunks) && h.holeSize == 0
    requires forall a {:trigger Joined(h', a)} :: a in h'.chunks ==> Joined(h', a)
    requires h.lo in h'.chunks ==> h'.chunks[h.lo].pinuse
    ensures Tiled(h')
  {
    forall a | a in h'.chunks
      ensures ChunkOK(h', a)
    {
      assert ChunkOK(h, a);
    }
  }

  lemma UseWholeJoined(h: Heap, a: int, b: int)
    requires Tiled(h) && a in h.chunks && !h.chunks[a].used && a + h.chunks[a].size in h.chunks && h.holeSize == 0
    requires b in h.chunks
    ensures Joined(UseWhole(h, a), b)
  {
    hide Tiled, Disjoint;
    var e := a + h.chunks[a].size;
    FreeHasNext(h, a);
    ChunkFacts(h, b);
    ChunkFacts(h, a);
    if a != b {
      ApartChunks(h, a, b);
    }
    hide ChunkOK;
  }

  lemma UseWholeTiled(h: Heap, a: int)
    requires Tiled(h) && a in h.chunks && !h.chunks[a].used && a + h.chunks[a].size in h.chunks && h.holeSize == 0
    ensures Tiled(UseWhole(h, a))
  {
    hide Tiled, Disjoint, ChunkOK, Joined;
    var h' := UseWhole(h, a);
    FreeHasNext(h, a);
    FirstPinuse(h);
    forall b | b in h'.chunks
      ensures Joined(h', b)
    {
      UseWholeJoined(h, a, b);
    }
    RetiledSame(h, h');
  }

  lemma FirstPinuse(h: Heap)
    requires Tiled(h)
    ensures h.lo in h.chunks ==> h.chunks[h.lo].pinuse
  {
  }

  /** w belongs to no block in use, except perhaps that of x. */
  ghost predicate Spare(cs: ChunkMap, w: int, x: int) {
    forall a :: a in cs && cs[a].used && a != x ==> w < a + PAYLOAD || a + cs[a].size < w
  }

  /** Writing spare words only keeps the live blocks. */
  lemma LiveByWords(m: Mem, cs: ChunkMap, m': Mem, cs': ChunkMap, words: set<int>, x: int)
    requires forall w :: w !in words ==> W(m', w) == W(m, w)
    requires forall w :: w in words ==> Spare(cs, w, x)
    requires forall a :: a in cs && cs[a].used && a != x ==> a in cs' && cs'[a].used && cs'[a].size == cs[a].size
    ensures LiveKept(m, cs, m', cs', x)
  {
    forall a, w | a in cs && cs[a].used && a != x && a + PAYLOAD <= w <= a + cs[a].size
      ensures W(m', w) == W(m, w)
    {
      if w in words {
        assert Spare(cs, w, x);
      }
    }
  }

  lemma HeaderIsSpare(h: Heap, a: int, x: int)
    requires Tiled(h) && a in h.chunks
    ensures Spare(h.chunks, a + HEADER, x)
  {
    forall b | b in h.chunks && b != a
      ensures a + HEADER < b + PAYLOAD || b + h.chunks[b].size < a + HEADER
    {
      ApartChunks(h, a, b);
    }
  }

  lemma FooterIsSpare(h: Heap, a: int, x: int)
    requires Tiled(h) && a in h.chunks && !h.chunks[a].used
    ensures Spare(h.chunks, a + h.chunks[a].size, x)
  {
    forall b | b in h.chunks && b != a
      ensures a + h.chunks[a].size < b + PAYLOAD || b + h.chunks[b].size < a + h.chunks[a].size
    {
      ApartChunks(h, a, b);
    }
  }

  lemma WrittenChunk(m: Mem, h: Heap, a: int)
    requires HeapOK(m, h) && a in h.chunks
    ensures ChunkAt(m, h, a) && W(m, a + HEADER) == HeaderWord(h.chunks[a])
  {
  }

  lemma UseWholeChunk(m: Mem, h: Heap, a: int, m': Mem, b: int)
    requires HeapOK(m, h) && a in h.chunks && !h.chunks[a].used && h.holeSize == 0 && b in h.chunks
    requires var e := a + h.chunks[a].size;
             e in h.chunks && m' == m[a + HEADER := OrCinuse(W(m, a + HEADER))][e + HEADER := OrPinuse(W(m, e + HEADER))]
    ensures ChunkAt(m', UseWhole(h, a), b)
  {
    hide Tiled, Disjoint, Joined, Written, HeaderWord, OrCinuse, OrPinuse, AndNotPinuse, InUse, PrevInUse, SizeOf;
    var e := a + h.chunks[a].size;
    WrittenChunk(m, h, a);
    WrittenChunk(m, h, b);
    WrittenChunk(m, h, e);
    FreeHasNext(h, a);
    ChunkFacts(h, a);
    ChunkFacts(h, b);
    ChunkFacts(h, e);
    Flags(h.chunks[a]);
    Flags(h.chunks[e]);
  }

  lemma UseWholeOK(m: Mem, h: Heap, a: int)
    requires HeapOK(m, h) && a in h.chunks && !h.chunks[a].used && h.holeSize == 0
    ensures var e := a + h.chunks[a].size;
            && e in h.chunks && a + HEADER in m && e + HEADER in m
            && var m' := m[a + HEADER := OrCinuse(m[a + HEADER])];
            && var m'' := m'[e + HEADER := OrPinuse(m'[e + HEADER])];
            && HeapOK(m'', UseWhole(h, a))
            && LiveKept(m, h.chunks, m'', UseWhole(h, a).chunks, 0)
  {
    hide Tiled, Disjoint, Joined, ChunkAt, Spare, LiveKept, OrCinuse, OrPinuse;
    var e := a + h.chunks[a].size;
    FreeHasNext(h, a);
    ChunkFacts(h, a);
    ChunkFacts(h, e);
    var h' := UseWhole(h, a);
    var m'' := m[a + HEADER := OrCinuse(m[a + HEADER])][e + HEADER := OrPinuse(m[e + HEADER])];
    UseWholeTiled(h, a);
    forall b | b in h'.chunks
      ensures ChunkAt(m'', h', b)
    {
      UseWholeChunk(m, h, a, m'', b);
    }
    HeaderIsSpare(h, a, 0);
    HeaderIsSpare(h, e, 0);
    LiveByWords(m, h.chunks, m'', h'.chunks, {a + HEADER, e + HEADER}, 0);
  }

  /** Free chunk a is handed out with n bytes; the rest stays free. */
  function UsePart(h: Heap, a: int, n: nat): Heap
    requires a in h.chunks && n <= h.chunks[a].size
  {
    h.(chunks := h.chunks[a := Chunk(n, true, true)][a + n := Chunk(h.chunks[a].size - n, false, true)])
  }

  function UsePartWords(m: Mem, a: int, n: nat, size: nat): Mem
    requires n <= size
  {
    m[a + HEADER := n + PINUSE + CINUSE][a + n + HEADER := size - n + PINUSE][a + size := size - n]
  }

  ghost predicate Splits(h: Heap, a: int, n: nat) {
    && a in h.chunks && !h.chunks[a].used && h.holeSize == 0
    && MIN_CHUNK <= n && n % 8 == 0 && n + MIN_CHUNK <= h.chunks[a].size
  }

  lemma UsePartChunk(h: Heap, a: int, n: nat, b: int)
    requires Tiled(h) && Splits(h, a, n) && b in UsePart(h, a, n).chunks
    ensures ChunkOK(UsePart(h, a, n), b) && Joined(UsePart(h, a, n), b)
  {
    hide Tiled, Disjoint;
    FreeHasNext(h, a);
    ChunkFacts(h, a);
    if b != a && b != a + n {
      ChunkFacts(h, b);
      ApartChunks(h, a, b);
    }
    MiddleIsNoChunk(h, a, n);
  }

  /** No chunk starts inside another one. */
  lemma MiddleIsNoChunk(h: Heap, a: int, n: nat)
    requires Tiled(h) && a in h.chunks && 0 < n < h.chunks[a].size
    ensures a + n !in h.chunks && a + n != h.top && h.lo != a + n
  {
    ChunkFacts(h, a);
    if a + n in h.chunks {
      ApartChunks(h, a, a + n);
    }
  }

  lemma UsePartTiled(h: Heap, a: int, n: nat)
    requires Tiled(h) && Splits(h, a, n)
    ensures Tiled(UsePart(h, a, n))
  {
    hide ChunkOK, Joined;
    var h' := UsePart(h, a, n);
    ChunkFacts(h, a);
    MiddleIsNoChunk(h, a, n);
    FreeHasNext(h, a);
    forall b | b in h'.chunks
      ensures ChunkOK(h', b) && Joined(h', b)
    {
      UsePartChunk(h, a, n, b);
    }
    forall b, c | b in h'.chunks && c in h'.chunks && b < c
      ensures b + h'.chunks[b].size <= c
    {
      if b in h.chunks && b != a {
        ApartChunks(h, a, b);
      }
      if c in h.chunks && c != a {
        ApartChunks(h, a, c);
      }
    }
  }

  lemma UsePartChunkAt(m: Mem, h: Heap, a: int, n: nat, b: int)
    requires HeapOK(m, h) && Splits(h, a, n) && b in UsePart(h, a, n).chunks
    ensures ChunkAt(UsePartWords(m, a, n, h.chunks[a].size), UsePart(h, a, n), b)
  {
    hide Tiled, Disjoint, Joined, Written, HeaderWord;
    FreeHasNext(h, a);
    ChunkFacts(h, a);
    WrittenChunk(m, h, a);
    MiddleIsNoChunk(h, a, n);
    NewHeaders(h.chunks[a].size - n, n);
    if b != a && b != a + n {
      ChunkFacts(h, b);
      WrittenChunk(m, h, b);
      ApartChunks(h, a, b);
    }
  }

  lemma NewHeaders(free: nat, used: nat)
    ensures HeaderWord(Chunk(free, false, true)) == free + PINUSE
    ensures HeaderWord(Chunk(used, true, true)) == used + PINUSE + CINUSE
    ensures HeaderWord(Chunk(used, true, false)) == used + CINUSE
  {
  }

  lemma UsePartOK(m: Mem, h: Heap, a: int, n: nat)
    requires HeapOK(m, h) && Splits(h, a, n)
    ensures var h', m' := UsePart(h, a, n), UsePartWords(m, a, n, h.chunks[a].size);
            HeapOK(m', h') && LiveKept(m, h.chunks, m', h'.chunks, 0)
    ensures a + HEADER in m && a + n + HEADER in m && a + h.chunks[a].size in m
    ensures a + h.chunks[a].size in h.chunks && a + n !in h.chunks
  {
    hide Disjoint, Joined, ChunkAt, Spare, LiveKept, Tiled;
    var h', m' := UsePart(h, a, n), UsePartWords(m, a, n, h.chunks[a].size);
    ChunkFacts(h, a);
    FreeHasNext(h, a);
    MiddleIsNoChunk(h, a, n);
    UsePartTiled(h, a, n);
    forall b | b in h'.chunks
      ensures ChunkAt(m', h', b)
    {
      UsePartChunkAt(m, h, a, n, b);
    }
    HeaderIsSpare(h, a, 0);
    FooterIsSpare(h, a, 0);
    InsideIsSpare(h, a, n + HEADER, 0);
    LiveByWords(m, h.chunks, m', h'.chunks, {a + HEADER, a + n + HEADER, a + h.chunks[a].size}, 0);
  }

  /** Payload words of a chunk belong to no other chunk's block. */
  lemma InsideIsSpare(h: Heap, a: int, n: nat, x: int)
    requires Tiled(h) && a in h.chunks && 0 < n <= h.chunks[a].size && (!h.chunks[a].used || a == x)
    ensures Spare(h.chunks, a + n, x)
  {
    forall b | b in h.chunks && b != a
      ensures a + n < b + PAYLOAD || b + h.chunks[b].size < a + n
    {
      ApartChunks(h, a, b);
    }
  }

  // ----- taking from the top chunk

  /** The top chunk is handed out with n bytes, whole if less than a chunk would be left. */
  function UseTop(h: Heap, n: nat): Heap
    requires n <= h.topSize
  {
    h.(chunks := h.chunks[h.top := Chunk(n, true, true)],
       top := h.top + n,
       topSize := if h.topSize - n < MIN_CHUNK then 0 else h.topSize - n)
  }

  function UseTopWords(m: Mem, h: Heap, n: nat): Mem
    requires n <= h.topSize
  {
    var m' := m[h.top + HEADER := n + PINUSE + CINUSE];
    if h.topSize - n < MIN_CHUNK then m'[h.top + n + HEADER := 0]
    else m'[h.top + n + HEADER := h.topSize - n + PINUSE][h.top + h.topSize := h.topSize - n]
  }

  lemma AllBelowTop(h: Heap)
    requires Tiled(h)
    ensures forall b :: b in h.chunks ==> b + h.chunks[b].size <= h.top && h.chunks[b].size >= MIN_CHUNK
    ensures h.top !in h.chunks
  {
    forall b | b in h.chunks
      ensures b + h.chunks[b].size <= h.top && h.chunks[b].size >= MIN_CHUNK
    {
      ChunkFacts(h, b);
    }
  }

  lemma UseTopChunk(h: Heap, n: nat, b: int)
    requires Tiled(h) && h.holeSize == 0 && MIN_CHUNK <= n <= h.topSize && n % 8 == 0 && b in UseTop(h, n).chunks
    ensures ChunkOK(UseTop(h, n), b) && Joined(UseTop(h, n), b)
  {
    hide Tiled, Disjoint;
    BoundsOf(h);
    AllBelowTop(h);
    if b != h.top {
      ChunkFacts(h, b);
    }
  }

  lemma UseTopTiled(h: Heap, n: nat)
    requires Tiled(h) && h.holeSize == 0 && MIN_CHUNK <= n <= h.topSize && n % 8 == 0
    ensures Tiled(UseTop(h, n)) && h.top !in h.chunks
  {
    hide ChunkOK, Joined;
    var h' := UseTop(h, n);
    AllBelowTop(h);
    forall b | b in h'.chunks
      ensures ChunkOK(h', b) && Joined(h', b)
    {
      UseTopChunk(h, n, b);
    }
  }

  lemma UseTopChunkAt(m: Mem, h: Heap, n: nat, b: int)
    requires HeapOK(m, h) && h.holeSize == 0 && MIN_CHUNK <= n <= h.topSize && n % 8 == 0
    requires b in UseTop(h, n).chunks && h.top !in h.chunks
    ensures ChunkAt(UseTopWords(m, h, n), UseTop(h, n), b)
  {
    hide Tiled, Disjoint, Joined, Written, HeaderWord;
    NewHeaders(0, n);
    if b != h.top {
      ChunkFacts(h, b);
      WrittenChunk(m, h, b);
    }
  }

  lemma UseTopOK(m: Mem, h: Heap, n: nat)
    requires HeapOK(m, h) && h.holeSize == 0 && MIN_CHUNK <= n <= h.topSize && n % 8 == 0
    ensures var h', m' := UseTop(h, n), UseTopWords(m, h, n);
            HeapOK(m', h') && LiveKept(m, h.chunks, m', h'.chunks, 0)
    ensures h.top + HEADER in m && h.top + n + HEADER in m && h.top + h.topSize in m
    ensures h.top !in h.chunks
  {
    hide Disjoint, Joined, ChunkAt, Spare, LiveKept, Tiled;
    var h', m' := UseTop(h, n), UseTopWords(m, h, n);
    BoundsOf(h);
    UseTopTiled(h, n);
    forall b | b in h'.chunks
      ensures ChunkAt(m', h', b)
    {
      UseTopChunkAt(m, h, n, b);
    }
    TopIsSpare(h, 0);
    LiveByWords(m, h.chunks, m', h'.chunks, {h.top + HEADER, h.top + n + HEADER, h.top + h.topSize}, 0);
  }

  lemma BoundsOf(h: Heap)
    requires Tiled(h)
    ensures Bounds(h)
  {
  }

  lemma TopIsSpare(h: Heap, x: int)
    requires Tiled(h)
    ensures forall w :: w > h.top ==> Spare(h.chunks, w, x)
  {
    forall b | b in h.chunks
      ensures b + h.chunks[b].size <= h.top
    {
      ChunkFacts(h, b);
    }
  }

  // ----- holes

  /** Chunk a stops being a chunk: its whole region becomes the hole. */
  function Vacate(h: Heap, a: int): Heap
    requires a in h.chunks
  {
    h.(chunks := h.chunks - {a}, hole := a, holeSize := h.chunks[a].size)
  }

  /** Chunk a keeps n bytes; the rest becomes the hole. */
  function Shorten(h: Heap, a: int, n: nat): Heap
    requires a in h.chunks && n <= h.chunks[a].size
  {
    h.(chunks := h.chunks[a := h.chunks[a].(size := n)], hole := a + n, holeSize := h.chunks[a].size - n)
  }

  /** A chunk in use becomes a hole, together with the free chunk before it if there is one. */
  function FreeRegion(m: Mem, h: Heap, a: int): Heap
    requires a in h.chunks
  {
    var p := a - W(m, a);
    if h.chunks[a].pinuse || p !in h.chunks then Vacate(h, a)
    else h.(chunks := h.chunks - {a} - {p}, hole := p, holeSize := h.chunks[p].size + h.chunks[a].size)
  }

  lemma PrevChunk(m: Mem, h: Heap, a: int)
    requires HeapOK(m, h) && a in h.chunks && !h.chunks[a].pinuse
    ensures a in m
    ensures var p := a - W(m, a);
            p in h.chunks && !h.chunks[p].used && h.chunks[p].size == W(m, a) && h.chunks[p].pinuse && p < a
  {
    WrittenChunk(m, h, a);
    ChunkFacts(h, a);
    var p := a - W(m, a);
    ChunkFacts(h, p);
  }

  lemma VacateChunk(h: Heap, a: int, b: int)
    requires Tiled(h) && h.holeSize == 0 && a in h.chunks && h.chunks[a].used && h.chunks[a].pinuse
    requires b in Vacate(h, a).chunks
    ensures ChunkOK(Vacate(h, a), b) && Joined(Vacate(h, a), b)
  {
    hide Tiled, Disjoint;
    ChunkFacts(h, a);
    ChunkFacts(h, b);
  }

  lemma VacateTiled(h: Heap, a: int)
    requires Tiled(h) && h.holeSize == 0 && a in h.chunks && h.chunks[a].used && h.chunks[a].pinuse
    ensures Tiled(Vacate(h, a))
  {
    hide ChunkOK, Joined;
    var h' := Vacate(h, a);
    ChunkFacts(h, a);
    forall b | b in h'.chunks
      ensures ChunkOK(h', b) && Joined(h', b)
      ensures b + h'.chunks[b].size <= a || a + h.chunks[a].size <= b
    {
      VacateChunk(h, a, b);
      ApartChunks(h, a, b);
    }
    NextOf(h, a);
  }

  lemma NextOf(h: Heap, a: int)
    requires Tiled(h) && h.holeSize == 0 && a in h.chunks
    ensures var e := a + h.chunks[a].size;
            && a % 8 == 0 && h.chunks[a].size % 8 == 0 && h.lo <= a && e <= h.top
            && (e == h.top || e in h.chunks) && (e in h.chunks ==> h.chunks[e].pinuse == h.chunks[a].used)
            && (e in h.chunks ==> e < h.top)
  {
    ChunkFacts(h, a);
    if a + h.chunks[a].size in h.chunks {
      ChunkFacts(h, a + h.chunks[a].size);
    }
  }

  lemma VacateBothChunk(h: Heap, p: int, a: int, b: int)
    requires Tiled(h) && h.holeSize == 0 && a in h.chunks && h.chunks[a].used
    requires p in h.chunks && !h.chunks[p].used && p + h.chunks[p].size == a && b in h.chunks && b != a && b != p
    ensures var h' := h.(chunks := h.chunks - {a} - {p}, hole := p, holeSize := h.chunks[p].size + h.chunks[a].size);
            ChunkOK(h', b) && Joined(h', b)
  {
    hide Tiled, Disjoint;
    ChunkFacts(h, a);
    ChunkFacts(h, p);
    ChunkFacts(h, b);
    ApartChunks(h, p, b);
  }

  lemma VacateBothTiled(h: Heap, p: int, a: int)
    requires Tiled(h) && h.holeSize == 0 && a in h.chunks && h.chunks[a].used
    requires p in h.chunks && !h.chunks[p].used && p + h.chunks[p].size == a
    ensures Tiled(h.(chunks := h.chunks - {a} - {p}, hole := p, holeSize := h.chunks[p].size + h.chunks[a].size))
  {
    hide ChunkOK, Joined;
    var h' := h.(chunks := h.chunks - {a} - {p}, hole := p, holeSize := h.chunks[p].size + h.chunks[a].size);
    NextOf(h, a);
    NextOf(h, p);
    ApartChunks(h, a, p);
    forall b | b in h'.chunks
      ensures ChunkOK(h', b) && Joined(h', b)
      ensures b + h'.chunks[b].size <= p || a + h.chunks[a].size <= b
    {
      VacateBothChunk(h, p, a, b);
      ApartChunks(h, a, b);
      ApartChunks(h, p, b);
    }
    FirstBoundary(h);
  }

  lemma FirstBoundary(h: Heap)
    requires Tiled(h) && h.holeSize == 0
    ensures h.lo == h.top || (h.lo in h.chunks && h.chunks[h.lo].pinuse)
  {
  }

  /** The region to be freed: well formed, with the flag and footer words still what they were. */
  lemma FreeRegionOK(m: Mem, h: Heap, a: int)
    requires HeapOK(m, h) && h.holeSize == 0 && a in h.chunks && h.chunks[a].used
    ensures HeapOK(m, FreeRegion(m, h, a))
    ensures LiveKept(m, h.chunks, m, FreeRegion(m, h, a).chunks, a)
    ensures FreeRegion(m, h, a).hole + FreeRegion(m, h, a).holeSize == a + h.chunks[a].size
  {
    hide Tiled, Disjoint, Joined, ChunkOK, ChunkAt, HeaderWord;
    var h' := FreeRegion(m, h, a);
    if h.chunks[a].pinuse {
      VacateTiled(h, a);
    } else {
      PrevChunk(m, h, a);
      VacateBothTiled(h, a - W(m, a), a);
    }
    forall b | b in h'.chunks
      ensures ChunkAt(m, h', b)
    {
      FreeRegionChunkAt(m, h, a, b);
    }
  }

  lemma FreeRegionChunkAt(m: Mem, h: Heap, a: int, b: int)
    requires HeapOK(m, h) && h.holeSize == 0 && a in h.chunks && h.chunks[a].used
    requires b in FreeRegion(m, h, a).chunks
    ensures ChunkAt(m, FreeRegion(m, h, a), b)
  {
    WrittenChunk(m, h, b);
    if !h.chunks[a].pinuse {
      PrevChunk(m, h, a);
    }
    if !h.chunks[b].pinuse {
      PrevChunk(m, h, b);
    }
  }

  ghost predicate Shortens(h: Heap, a: int, n: nat) {
    && a in h.chunks && h.chunks[a].used && h.holeSize == 0
    && MIN_CHUNK <= n && n % 8 == 0 && n < h.chunks[a].size
  }

  lemma ShortenChunk(h: Heap, a: int, n: nat, b: int)
    requires Tiled(h) && Shortens(h, a, n) && b in h.chunks
    ensures ChunkOK(Shorten(h, a, n), b) && Joined(Shorten(h, a, n), b)
  {
    hide Tiled, Disjoint;
    MiddleIsNoChunk(h, a, n);
    ChunkFacts(h, a);
    ChunkFacts(h, b);
    if b != a {
      ApartChunks(h, a, b);
    }
  }

  lemma ShortenTiled(h: Heap, a: int, n: nat)
    requires Tiled(h) && Shortens(h, a, n)
    ensures Tiled(Shorten(h, a, n))
  {
    hide ChunkOK, Joined;
    var h' := Shorten(h, a, n);
    NextOf(h, a);
    FirstBoundary(h);
    forall b | b in h'.chunks
      ensures ChunkOK(h', b) && Joined(h', b)
    {
      ShortenChunk(h, a, n, b);
    }
    ShortenHole(h, a, n);
    assert Disjoint(h'.chunks);
    hide Disjoint;
  }

  lemma ShortenHole(h: Heap, a: int, n: nat)
    requires Tiled(h) && Shortens(h, a, n)
    ensures HoleOK(Shorten(h, a, n))
  {
    hide Tiled, Disjoint;
    var h' := Shorten(h, a, n);
    NextOf(h, a);
    forall b | b in h'.chunks
      ensures b + h'.chunks[b].size <= a + n || a + h.chunks[a].size <= b
    {
      if b != a {
        ApartChunks(h, a, b);
      }
    }
  }

  lemma ShortenOK(m: Mem, h: Heap, a: int, n: nat)
    requires HeapOK(m, h) && Shortens(h, a, n)
    ensures a + HEADER in m
    ensures var h', m' := Shorten(h, a, n), m[a + HEADER := n + CINUSE + W(m, a + HEADER) % 2];
            HeapOK(m', h') && LiveKept(m, h.chunks, m', h'.chunks, a) && BlockKept(m, m', a, n)
  {
    hide Tiled, Disjoint, Joined, ChunkOK, ChunkAt, Spare, LiveKept;
    var h', m' := Shorten(h, a, n), m[a + HEADER := n + CINUSE + W(m, a + HEADER) % 2];
    NextOf(h, a);
    BoundsOf(h);
    ShortenTiled(h, a, n);
    forall b | b in h'.chunks
      ensures ChunkAt(m', h', b)
    {
      ShortenChunkAt(m, h, a, n, b);
    }
    HeaderIsSpare(h, a, a);
    LiveByWords(m, h.chunks, m', h'.chunks, {a + HEADER}, a);
  }

  lemma FooterStays(m: Mem, h: Heap, a: int, n: nat, b: int)
    requires HeapOK(m, h) && Shortens(h, a, n) && b in h.chunks && !h.chunks[b].pinuse
    ensures PrevByFooter(m[a + HEADER := n + CINUSE + W(m, a + HEADER) % 2], Shorten(h, a, n), b)
  {
    hide Tiled, Disjoint, Joined, Written;
    ChunkFacts(h, a);
    ChunkFacts(h, b);
    PrevChunk(m, h, b);
  }

  lemma ShortenChunkAt(m: Mem, h: Heap, a: int, n: nat, b: int)
    requires HeapOK(m, h) && Shortens(h, a, n) && b in h.chunks
    ensures ChunkAt(m[a + HEADER := n + CINUSE + W(m, a + HEADER) % 2], Shorten(h, a, n), b)
  {
    hide Tiled, Disjoint, Joined, Written, HeaderWord, PrevByFooter;
    ChunkFacts(h, a);
    ChunkFacts(h, b);
    WrittenChunk(m, h, a);
    WrittenChunk(m, h, b);
    Resized(h.chunks[a], n);
    if b != a {
      ApartChunks(h, a, b);
    }
    if !h.chunks[b].pinuse {
      PrevChunk(m, h, b);
      FooterStays(m, h, a, n, b);
    }
  }

  // ----- closing the hole

  /** The hole becomes a free chunk in front of a chunk in use. */
  function CloseAlone(h: Heap): Heap
    requires h.hole + h.holeSize in h.chunks
  {
    var e := h.hole + h.holeSize;
    h.(chunks := h.chunks[h.hole := Chunk(h.holeSize, false, true)][e := h.chunks[e].(pinuse := false)],
       hole := 0, holeSize := 0)
  }

  /** The hole and the free chunk behind it become one free chunk. */
  function CloseMerge(h: Heap): Heap
    requires h.hole + h.holeSize in h.chunks
  {
    var e := h.hole + h.holeSize;
    h.(chunks := (h.chunks - {e})[h.hole := Chunk(h.holeSize + h.chunks[e].size, false, true)],
       hole := 0, holeSize := 0)
  }

  /** The hole and the top chunk become the top chunk. */
  function CloseTop(h: Heap): Heap {
    h.(top := h.hole, topSize := h.holeSize + h.topSize, hole := 0, holeSize := 0)
  }

  /** first->header = size | PINUSE; the footer behind it gets the size. */
  function FreeWords(m: Mem, first: int, size: nat): Mem {
    m[first + HEADER := size + PINUSE][first + size := size]
  }

  /** What is in the hole does not matter. */
  lemma HoleWord(m: Mem, h: Heap, w: int, v: int)
    requires HeapOK(m, h) && h.holeSize > 0 && h.hole + HEADER <= w < h.hole + h.holeSize
    ensures HeapOK(m[w := v], h) && LiveKept(m, h.chunks, m[w := v], h.chunks, 0)
  {
    hide Tiled, ChunkAt, BlockKept;
    HoleFacts(h);
    forall a | a in h.chunks
      ensures ChunkAt(m[w := v], h, a) && BlockKept(m, m[w := v], a, h.chunks[a].size)
    {
      HoleWordChunk(m, h, w, v, a);
    }
  }

  lemma HoleWordChunk(m: Mem, h: Heap, w: int, v: int, a: int)
    requires HeapOK(m, h) && h.holeSize > 0 && h.hole + HEADER <= w < h.hole + h.holeSize && a in h.chunks
    ensures ChunkAt(m[w := v], h, a) && BlockKept(m, m[w := v], a, h.chunks[a].size)
  {
    WrittenChunk(m, h, a);
    ChunkFacts(h, a);
    assert a + h.chunks[a].size <= h.hole || h.hole + h.holeSize <= a;
    hide Tiled, Written;
  }

  lemma HoleFacts(h: Heap)
    requires Tiled(h) && h.holeSize > 0
    ensures h.hole % 8 == 0 && h.holeSize % 8 == 0 && 0 < h.lo <= h.hole && h.hole !in h.chunks && h.hole < h.top
    ensures var e := h.hole + h.holeSize; (e == h.top || e in h.chunks) && e <= h.top && e != h.lo
    ensures h.hole + h.holeSize in h.chunks ==>
              h.chunks[h.hole + h.holeSize].pinuse && h.hole + h.holeSize + h.chunks[h.hole + h.holeSize].size <= h.top
    ensures h.top + h.topSize + 8 <= h.hi && h.top % 8 == 0 && h.topSize % 8 == 0
    ensures h.lo == h.hole || (h.lo in h.chunks && h.chunks[h.lo].pinuse)
  {
    var e := h.hole + h.holeSize;
    if e in h.chunks {
      ChunkFacts(h, e);
    }
    if h.hole in h.chunks {
      ChunkFacts(h, h.hole);
    }
  }

  lemma HoleApart(h: Heap, b: int)
    requires Tiled(h) && h.holeSize > 0 && b in h.chunks
    ensures b + h.chunks[b].size <= h.hole || h.hole + h.holeSize <= b
  {
  }

  lemma HoleIsSpare(h: Heap, w: int, x: int)
    requires Tiled(h) && h.holeSize > 0 && h.hole < w <= h.hole + h.holeSize + HEADER
    ensures Spare(h.chunks, w, x)
  {
    forall b | b in h.chunks
      ensures w < b + PAYLOAD || b + h.chunks[b].size < w
    {
      HoleApart(h, b);
    }
  }

  lemma CloseAloneChunk(h: Heap, b: int)
    requires Tiled(h) && h.holeSize >= MIN_CHUNK && h.hole + h.holeSize in h.chunks && h.chunks[h.hole + h.holeSize].used
    requires b in CloseAlone(h).chunks
    ensures ChunkOK(CloseAlone(h), b) && Joined(CloseAlone(h), b)
  {
    hide Tiled, Disjoint;
    HoleFacts(h);
    if b == h.hole {
      ChunkFacts(h, h.hole + h.holeSize);
    } else {
      ChunkFacts(h, b);
      HoleApart(h, b);
      assert b + h.chunks[b].size != h.hole + h.holeSize;
      assert Boundary(CloseAlone(h), b + h.chunks[b].size);
    }
  }

  lemma CloseAloneTiled(h: Heap)
    requires Tiled(h) && h.holeSize >= MIN_CHUNK && h.hole + h.holeSize in h.chunks && h.chunks[h.hole + h.holeSize].used
    ensures Tiled(CloseAlone(h))
  {
    hide ChunkOK, Joined;
    var h' := CloseAlone(h);
    HoleFacts(h);
    forall b | b in h'.chunks
      ensures ChunkOK(h', b) && Joined(h', b)
    {
      CloseAloneChunk(h, b);
    }
    forall b, c | b in h'.chunks && c in h'.chunks && b < c
      ensures b + h'.chunks[b].size <= c
    {
      if b != h.hole {
        HoleApart(h, b);
      }
      if c != h.hole {
        HoleApart(h, c);
      }
    }
  }

  lemma CloseAloneChunkAt(m: Mem, h: Heap, b: int)
    requires HeapOK(m, h) && h.holeSize > 0 && h.hole + h.holeSize in h.chunks && h.chunks[h.hole + h.holeSize].used
    requires b in CloseAlone(h).chunks
    ensures var e := h.hole + h.holeSize;
            ChunkAt(FreeWords(m, h.hole, h.holeSize)[e + HEADER := AndNotPinuse(W(m, e + HEADER))], CloseAlone(h), b)
  {
    hide Tiled, Disjoint, Joined, Written, HeaderWord, AndNotPinuse, OrCinuse, OrPinuse, InUse, PrevInUse;
    var e := h.hole + h.holeSize;
    var m' := FreeWords(m, h.hole, h.holeSize)[e + HEADER := AndNotPinuse(W(m, e + HEADER))];
    HoleFacts(h);
    ChunkFacts(h, e);
    WrittenChunk(m, h, e);
    Flags(h.chunks[e]);
    NewHeaders(h.holeSize, 0);
    if b != h.hole {
      ChunkFacts(h, b);
      WrittenChunk(m, h, b);
      HoleApart(h, b);
      if b != e {
        ApartChunks(h, b, e);
      } else {
        assert W(m', e + HEADER) == HeaderWord(h.chunks[e].(pinuse := false)) && W(m', e) == h.holeSize;
        assert PrevByFooter(m', CloseAlone(h), e);
      }
      if !h.chunks[b].pinuse {
        PrevChunk(m, h, b);
      }
      assert ChunkAt(m', CloseAlone(h), b);
    }
  }

  lemma CloseAloneOK(m: Mem, h: Heap)
    requires HeapOK(m, h) && h.holeSize >= MIN_CHUNK && h.hole + h.holeSize in h.chunks && h.chunks[h.hole + h.holeSize].used
    ensures var e := h.hole + h.holeSize;
            && h.hole + HEADER in m && e in m && e + HEADER in m
            && var m' := FreeWords(m, h.hole, h.holeSize)[e + HEADER := AndNotPinuse(W(m, e + HEADER))];
            HeapOK(m', CloseAlone(h)) && LiveKept(m, h.chunks, m', CloseAlone(h).chunks, 0)
  {
    hide Tiled, Disjoint, Joined, ChunkOK, ChunkAt, Spare, LiveKept, AndNotPinuse;
    var e := h.hole + h.holeSize;
    var h', m' := CloseAlone(h), FreeWords(m, h.hole, h.holeSize)[e + HEADER := AndNotPinuse(W(m, e + HEADER))];
    HoleFacts(h);
    CloseAloneTiled(h);
    forall b | b in h'.chunks
      ensures ChunkAt(m', h', b)
    {
      CloseAloneChunkAt(m, h, b);
    }
    HoleIsSpare(h, h.hole + HEADER, 0);
    HoleIsSpare(h, e, 0);
    HoleIsSpare(h, e + HEADER, 0);
    ChunkFacts(h, e);
    LiveByWords(m, h.chunks, m', h'.chunks, {h.hole + HEADER, e, e + HEADER}, 0);
  }

  lemma CloseMergeChunk(h: Heap, b: int)
    requires Tiled(h) && h.holeSize > 0 && h.hole + h.holeSize in h.chunks && !h.chunks[h.hole + h.holeSize].used
    requires b in CloseMerge(h).chunks
    ensures ChunkOK(CloseMerge(h), b) && Joined(CloseMerge(h), b)
  {
    hide Tiled, Disjoint;
    var e := h.hole + h.holeSize;
    HoleFacts(h);
    ChunkFacts(h, e);
    if b != h.hole {
      ChunkFacts(h, b);
      HoleApart(h, b);
      ApartChunks(h, b, e);
    }
    if e + h.chunks[e].size in h.chunks {
      ChunkFacts(h, e + h.chunks[e].size);
    }
  }

  lemma CloseMergeTiled(h: Heap)
    requires Tiled(h) && h.holeSize > 0 && h.hole + h.holeSize in h.chunks && !h.chunks[h.hole + h.holeSize].used
    ensures Tiled(CloseMerge(h))
  {
    hide ChunkOK, Joined;
    var e := h.hole + h.holeSize;
    var h' := CloseMerge(h);
    HoleFacts(h);
    forall b | b in h'.chunks
      ensures ChunkOK(h', b) && Joined(h', b)
    {
      CloseMergeChunk(h, b);
    }
    forall b, c | b in h'.chunks && c in h'.chunks && b < c
      ensures b + h'.chunks[b].size <= c
    {
      if b != h.hole {
        HoleApart(h, b);
      }
      if c != h.hole {
        HoleApart(h, c);
        ApartChunks(h, e, c);
      }
    }
  }

  lemma CloseMergeChunkAt(m: Mem, h: Heap, b: int)
    requires HeapOK(m, h) && h.holeSize > 0 && h.hole + h.holeSize in h.chunks && !h.chunks[h.hole + h.holeSize].used
    requires b in CloseMerge(h).chunks
    ensures ChunkAt(FreeWords(m, h.hole, h.holeSize + h.chunks[h.hole + h.holeSize].size), CloseMerge(h), b)
  {
    hide Tiled, Disjoint, Joined, Written, HeaderWord;
    var e := h.hole + h.holeSize;
    HoleFacts(h);
    ChunkFacts(h, e);
    WrittenChunk(m, h, e);
    NewHeaders(h.holeSize + h.chunks[e].size, 0);
    if b != h.hole {
      ChunkFacts(h, b);
      WrittenChunk(m, h, b);
      HoleApart(h, b);
      ApartChunks(h, b, e);
      if !h.chunks[b].pinuse {
        PrevChunk(m, h, b);
      }
    }
  }

  lemma CloseMergeOK(m: Mem, h: Heap)
    requires HeapOK(m, h) && h.holeSize > 0 && h.hole + h.holeSize in h.chunks && !h.chunks[h.hole + h.holeSize].used
    ensures var sum := h.holeSize + h.chunks[h.hole + h.holeSize].size;
            && h.hole + HEADER in m && h.hole + sum in m && sum >= MIN_CHUNK && sum % 8 == 0
            && var m' := FreeWords(m, h.hole, sum);
            HeapOK(m', CloseMerge(h)) && LiveKept(m, h.chunks, m', CloseMerge(h).chunks, 0)
  {
    hide Tiled, Disjoint, Joined, ChunkAt, Spare, LiveKept;
    var e := h.hole + h.holeSize;
    var sum := h.holeSize + h.chunks[e].size;
    var h', m' := CloseMerge(h), FreeWords(m, h.hole, sum);
    HoleFacts(h);
    ChunkFacts(h, e);
    CloseMergeTiled(h);
    forall b | b in h'.chunks
      ensures ChunkAt(m', h', b)
    {
      CloseMergeChunkAt(m, h, b);
    }
    HoleIsSpare(h, h.hole + HEADER, 0);
    FooterIsSpare(h, e, 0);
    LiveByWords(m, h.chunks, m', h'.chunks, {h.hole + HEADER, h.hole + sum}, 0);
  }

  lemma CloseTopOK(m: Mem, h: Heap)
    requires HeapOK(m, h) && h.holeSize > 0 && h.hole + h.holeSize == h.top
    ensures h.hole + HEADER in m && h.hole + h.holeSize + h.topSize in m
    ensures var m' := FreeWords(m, h.hole, h.holeSize + h.topSize);
            HeapOK(m', CloseTop(h)) && LiveKept(m, h.chunks, m', CloseTop(h).chunks, 0)
  {
    hide Disjoint, Joined, ChunkOK, ChunkAt, Spare, LiveKept;
    var sum := h.holeSize + h.topSize;
    var h', m' := CloseTop(h), FreeWords(m, h.hole, sum);
    HoleFacts(h);
    forall b | b in h'.chunks
      ensures ChunkOK(h', b) && Joined(h', b) && ChunkAt(m', h', b)
    {
      CloseTopChunk(m, h, b);
    }
    HoleIsSpare(h, h.hole + HEADER, 0);
    if h.topSize > 0 {
      TopIsSpare(h, 0);
    } else {
      HoleIsSpare(h, h.top, 0);
    }
    LiveByWords(m, h.chunks, m', h'.chunks, {h.hole + HEADER, h.hole + sum}, 0);
  }

  lemma CloseTopChunk(m: Mem, h: Heap, b: int)
    requires HeapOK(m, h) && h.holeSize > 0 && h.hole + h.holeSize == h.top && b in h.chunks
    ensures ChunkOK(CloseTop(h), b) && Joined(CloseTop(h), b)
    ensures ChunkAt(FreeWords(m, h.hole, h.holeSize + h.topSize), CloseTop(h), b)
  {
    hide Tiled, Disjoint, Written;
    HoleFacts(h);
    ChunkFacts(h, b);
    WrittenChunk(m, h, b);
    HoleApart(h, b);
    if !h.chunks[b].pinuse {
      PrevChunk(m, h, b);
    }
  }

  // ----- growing a chunk in use

  /** Chunk a takes d bytes from the free chunk behind it. */
  function ExpandPart(h: Heap, a: int, d: nat): Heap
    requires a in h.chunks && a + h.chunks[a].size in h.chunks && d <= h.chunks[a + h.chunks[a].size].size
  {
    var e := a + h.chunks[a].size;
    h.(chunks := (h.chunks - {e})[a := h.chunks[a].(size := h.chunks[a].size + d)]
                                 [e + d := Chunk(h.chunks[e].size - d, false, true)])
  }

  function ExpandPartWords(m: Mem, a: int, size: nat, d: nat, free: nat): Mem
    requires d <= free
  {
    m[a + HEADER := size + d + CINUSE + W(m, a + HEADER) % 2]
     [a + size + d + HEADER := free - d + PINUSE][a + size + free := free - d]
  }

  /** Chunk a takes the whole free chunk behind it. */
  function ExpandWhole(h: Heap, a: int): Heap
    requires a in h.chunks && a + h.chunks[a].size in h.chunks
    requires var e := a + h.chunks[a].size; e + h.chunks[e].size in h.chunks
  {
    var e := a + h.chunks[a].size;
    var n := e + h.chunks[e].size;
    h.(chunks := (h.chunks - {e})[n := h.chunks[n].(pinuse := true)]
                                 [a := h.chunks[a].(size := h.chunks[a].size + h.chunks[e].size)])
  }

  /** Chunk a takes d bytes from the top chunk. */
  function ExpandTop(h: Heap, a: int, d: nat): Heap
    requires a in h.chunks && d <= h.topSize
  {
    h.(chunks := h.chunks[a := h.chunks[a].(size := h.chunks[a].size + d)], top := h.top + d, topSize := h.topSize - d)
  }

  ghost predicate Expands(h: Heap, a: int) {
    && a in h.chunks && h.chunks[a].used && h.holeSize == 0
    && a + h.chunks[a].size in h.chunks && !h.chunks[a + h.chunks[a].size].used
  }

  lemma ExpandPartChunk(h: Heap, a: int, d: nat, b: int)
    requires Tiled(h) && Expands(h, a) && d % 8 == 0 && 0 < d && d + MIN_CHUNK <= h.chunks[a + h.chunks[a].size].size
    requires b in ExpandPart(h, a, d).chunks
    ensures ChunkOK(ExpandPart(h, a, d), b) && Joined(ExpandPart(h, a, d), b)
  {
    hide Tiled, Disjoint;
    var e := a + h.chunks[a].size;
    ChunkFacts(h, a);
    ChunkFacts(h, e);
    MiddleIsNoChunk(h, e, d);
    FreeHasNext(h, e);
    if b != a && b != e + d {
      ChunkFacts(h, b);
      ApartChunks(h, a, b);
      ApartChunks(h, e, b);
    }
  }

  lemma ExpandPartTiled(h: Heap, a: int, d: nat)
    requires Tiled(h) && Expands(h, a) && d % 8 == 0 && 0 < d && d + MIN_CHUNK <= h.chunks[a + h.chunks[a].size].size
    ensures Tiled(ExpandPart(h, a, d))
  {
    hide ChunkOK, Joined;
    var e := a + h.chunks[a].size;
    var h' := ExpandPart(h, a, d);
    FirstBoundary(h);
    ChunkFacts(h, a);
    NextOf(h, e);
    FreeHasNext(h, e);
    forall b | b in h'.chunks
      ensures ChunkOK(h', b) && Joined(h', b)
    {
      ExpandPartChunk(h, a, d, b);
    }
    forall b, c | b in h'.chunks && c in h'.chunks && b < c
      ensures b + h'.chunks[b].size <= c
    {
      ExpandPartApart(h, a, d, b, c);
    }
    ApartChunks(h, a, e);
  }

  lemma ExpandPartApart(h: Heap, a: int, d: nat, b: int, c: int)
    requires Tiled(h) && Expands(h, a) && d % 8 == 0 && 0 < d && d + MIN_CHUNK <= h.chunks[a + h.chunks[a].size].size
    requires b in ExpandPart(h, a, d).chunks && c in ExpandPart(h, a, d).chunks && b < c
    ensures b + ExpandPart(h, a, d).chunks[b].size <= c
  {
    hide Tiled, Disjoint;
    var e := a + h.chunks[a].size;
    ApartChunks(h, a, e);
    if b in h.chunks && b != a && b != e {
      ApartChunks(h, a, b);
      ApartChunks(h, e, b);
      if c in h.chunks && c != e {
        ApartChunks(h, b, c);
      }
    }
    if c in h.chunks && c != a && c != e {
      ApartChunks(h, a, c);
      ApartChunks(h, e, c);
    }
  }

  /** The chunk before b, where the remainder's footer or an untouched one leads to it. */
  lemma ExpandPartPrev(m: Mem, h: Heap, a: int, d: nat, b: int)
    requires HeapOK(m, h) && Expands(h, a) && d % 8 == 0 && 0 < d && d + MIN_CHUNK <= h.chunks[a + h.chunks[a].size].size
    requires b in h.chunks && b != a + h.chunks[a].size && !h.chunks[b].pinuse
    ensures PrevByFooter(ExpandPartWords(m, a, h.chunks[a].size, d, h.chunks[a + h.chunks[a].size].size),
                         ExpandPart(h, a, d), b)
  {
    hide Tiled, Disjoint, Joined, Written, HeaderWord;
    var e := a + h.chunks[a].size;
    ChunkFacts(h, a);
    ChunkFacts(h, e);
    FreeHasNext(h, e);
    MiddleIsNoChunk(h, e, d);
    ChunkFacts(h, b);
    PrevChunk(m, h, b);
    if b != e + h.chunks[e].size {
      ApartChunks(h, e, b);
      ApartChunks(h, e, b - W(m, b));
    }
    if b != a {
      ApartChunks(h, a, b);
    }
    hide ChunkOK;
  }

  lemma ExpandPartChunkAt(m: Mem, h: Heap, a: int, d: nat, b: int)
    requires HeapOK(m, h) && Expands(h, a) && d % 8 == 0 && 0 < d && d + MIN_CHUNK <= h.chunks[a + h.chunks[a].size].size
    requires b in ExpandPart(h, a, d).chunks
    ensures ChunkAt(ExpandPartWords(m, a, h.chunks[a].size, d, h.chunks[a + h.chunks[a].size].size), ExpandPart(h, a, d), b)
  {
    hide Tiled, Disjoint, Joined, Written, HeaderWord, PrevByFooter;
    var e := a + h.chunks[a].size;
    ChunkFacts(h, a);
    ChunkFacts(h, e);
    WrittenChunk(m, h, a);
    FreeHasNext(h, e);
    MiddleIsNoChunk(h, e, d);
    Resized(h.chunks[a], h.chunks[a].size + d);
    NewHeaders(h.chunks[e].size - d, 0);
    if b != e + d {
      ChunkFacts(h, b);
      WrittenChunk(m, h, b);
      if b != a {
        ApartChunks(h, a, b);
        ApartChunks(h, e, b);
      }
      if !h.chunks[b].pinuse {
        ExpandPartPrev(m, h, a, d, b);
      }
    }
  }

  lemma ExpandPartOK(m: Mem, h: Heap, a: int, d: nat)
    requires HeapOK(m, h) && Expands(h, a) && d % 8 == 0 && 0 < d && d + MIN_CHUNK <= h.chunks[a + h.chunks[a].size].size
    ensures var size, free := h.chunks[a].size, h.chunks[a + h.chunks[a].size].size;
            && a + HEADER in m && a + size + d + HEADER in m && a + size + free in m
            && var m' := ExpandPartWords(m, a, size, d, free);
            HeapOK(m', ExpandPart(h, a, d)) && LiveKept(m, h.chunks, m', ExpandPart(h, a, d).chunks, a) && BlockKept(m, m', a, size)
  {
    hide Disjoint, Joined, ChunkOK, ChunkAt, Spare, LiveKept, Tiled, PrevByFooter;
    var e := a + h.chunks[a].size;
    var size, free := h.chunks[a].size, h.chunks[e].size;
    var h', m' := ExpandPart(h, a, d), ExpandPartWords(m, a, size, d, free);
    NextOf(h, a);
    NextOf(h, e);
    BoundsOf(h);
    ExpandPartTiled(h, a, d);
    forall b | b in h'.chunks
      ensures ChunkAt(m', h', b)
    {
      ExpandPartChunkAt(m, h, a, d, b);
    }
    ExpandPartLive(m, h, a, d);
    FreeHasNext(h, e);
    ApartChunks(h, a, e);
    ApartChunks(h, e, e + free);
  }

  lemma ExpandPartLive(m: Mem, h: Heap, a: int, d: nat)
    requires HeapOK(m, h) && Expands(h, a) && d % 8 == 0 && 0 < d && d + MIN_CHUNK <= h.chunks[a + h.chunks[a].size].size
    ensures var size, free := h.chunks[a].size, h.chunks[a + h.chunks[a].size].size;
            LiveKept(m, h.chunks, ExpandPartWords(m, a, size, d, free), ExpandPart(h, a, d).chunks, a)
  {
    hide Disjoint, Joined, ChunkOK, Written, Spare, LiveKept, Tiled;
    var e := a + h.chunks[a].size;
    var free, h' := h.chunks[e].size, ExpandPart(h, a, d);
    HeaderIsSpare(h, a, a);
    MiddleIsNoChunk(h, e, d);
    InsideIsSpare(h, e, d + HEADER, a);
    FooterIsSpare(h, e, a);
    LiveByWords(m, h.chunks, ExpandPartWords(m, a, h.chunks[a].size, d, free), h'.chunks,
                {a + HEADER, e + d + HEADER, e + free}, a);
  }

  lemma ExpandWholeChunk(h: Heap, a: int, b: int)
    requires Tiled(h) && Expands(h, a)
    requires var e := a + h.chunks[a].size; e + h.chunks[e].size in h.chunks
    requires b in ExpandWhole(h, a).chunks
    ensures ChunkOK(ExpandWhole(h, a), b) && Joined(ExpandWhole(h, a), b)
  {
    hide Tiled, Disjoint;
    var e := a + h.chunks[a].size;
    var n := e + h.chunks[e].size;
    ChunkFacts(h, a);
    ChunkFacts(h, e);
    ChunkFacts(h, b);
    ChunkFacts(h, n);
    FreeHasNext(h, e);
    if b != a {
      ApartChunks(h, a, b);
      ApartChunks(h, e, b);
    }
    if b + h.chunks[b].size in h.chunks {
      ChunkFacts(h, b + h.chunks[b].size);
    }
  }

  lemma ExpandWholeChunkAt(m: Mem, h: Heap, a: int, b: int)
    requires HeapOK(m, h) && Expands(h, a)
    requires var e := a + h.chunks[a].size; e + h.chunks[e].size in h.chunks
    requires b in ExpandWhole(h, a).chunks
    ensures var e := a + h.chunks[a].size;
            var n := e + h.chunks[e].size;
            ChunkAt(m[a + HEADER := h.chunks[a].size + h.chunks[e].size + CINUSE + W(m, a + HEADER) % 2]
                     [n + HEADER := OrPinuse(W(m, n + HEADER))], ExpandWhole(h, a), b)
  {
    hide Tiled, Disjoint, Joined, Written, OrPinuse, OrCinuse, InUse, PrevInUse, HeaderWord;
    var e := a + h.chunks[a].size;
    var n := e + h.chunks[e].size;
    ChunkFacts(h, a);
    ChunkFacts(h, e);
    ChunkFacts(h, b);
    ChunkFacts(h, n);
    Flags(h.chunks[n]);
    Resized(h.chunks[a], h.chunks[a].size + h.chunks[e].size);
    WrittenChunk(m, h, a);
    WrittenChunk(m, h, n);
    WrittenChunk(m, h, b);
    FreeHasNext(h, e);
    if b != a {
      ApartChunks(h, a, b);
      ApartChunks(h, e, b);
    }
    if !h.chunks[b].pinuse {
      PrevChunk(m, h, b);
    }
  }

  lemma ExpandWholeOK(m: Mem, h: Heap, a: int)
    requires HeapOK(m, h) && Expands(h, a)
    ensures var e := a + h.chunks[a].size;
            var n := e + h.chunks[e].size;
            && n in h.chunks && n != h.top && a + HEADER in m && n + HEADER in m
            && var m' := m[a + HEADER := h.chunks[a].size + h.chunks[e].size + CINUSE + W(m, a + HEADER) % 2]
                          [n + HEADER := OrPinuse(W(m, n + HEADER))];
            && W(m, n + HEADER) != 0
            && HeapOK(m', ExpandWhole(h, a)) && LiveKept(m, h.chunks, m', ExpandWhole(h, a).chunks, a)
            && BlockKept(m, m', a, h.chunks[a].size)
  {
    hide Joined, ChunkOK, ChunkAt, Spare, LiveKept, OrPinuse, InUse, PrevInUse, PrevByFooter, Tiled, Disjoint;
    var e := a + h.chunks[a].size;
    var n := e + h.chunks[e].size;
    NextOf(h, a);
    NextOf(h, e);
    FreeHasNext(h, e);
    BoundsOf(h);
    ApartChunks(h, a, e);
    ApartChunks(h, e, n);
    WrittenChunk(m, h, n);
    var m' := m[a + HEADER := h.chunks[a].size + h.chunks[e].size + CINUSE + W(m, a + HEADER) % 2]
               [n + HEADER := OrPinuse(W(m, n + HEADER))];
    var h' := ExpandWhole(h, a);
    ExpandWholeTiled(m, h, a);
    forall b | b in h'.chunks
      ensures ChunkAt(m', h', b)
    {
      ExpandWholeChunkAt(m, h, a, b);
    }
    HeaderIsSpare(h, a, a);
    HeaderIsSpare(h, n, a);
    LiveByWords(m, h.chunks, m', h'.chunks, {a + HEADER, n + HEADER}, a);
  }

  lemma ExpandWholeTiled(m: Mem, h: Heap, a: int)
    requires HeapOK(m, h) && Expands(h, a)
    requires var e := a + h.chunks[a].size; e + h.chunks[e].size in h.chunks
    ensures Tiled(ExpandWhole(h, a))
  {
    hide ChunkOK, Joined, ChunkAt, Written;
    var e := a + h.chunks[a].size;
    var h' := ExpandWhole(h, a);
    FirstBoundary(h);
    ChunkFacts(h, a);
    FreeHasNext(h, e);
    forall b | b in h'.chunks
      ensures ChunkOK(h', b) && Joined(h', b)
    {
      ExpandWholeChunk(h, a, b);
    }
    forall b, c | b in h'.chunks && c in h'.chunks && b < c
      ensures b + h'.chunks[b].size <= c
    {
      if b == a {
        ApartChunks(h, a, c);
        ApartChunks(h, e, c);
      } else {
        ApartChunks(h, b, c);
      }
    }
    ApartChunks(h, a, e);
  }

  lemma ExpandTopChunk(h: Heap, a: int, d: nat, b: int)
    requires Tiled(h) && a in h.chunks && h.chunks[a].used && h.holeSize == 0 && a + h.chunks[a].size == h.top
    requires 0 < d <= h.topSize && d % 8 == 0 && b in h.chunks
    ensures ChunkOK(ExpandTop(h, a, d), b) && Joined(ExpandTop(h, a, d), b)
  {
    hide Tiled, Disjoint;
    ChunkFacts(h, a);
    ChunkFacts(h, b);
    AllBelowTop(h);
    if b != a {
      ApartChunks(h, a, b);
    }
  }

  lemma ExpandTopChunkAt(m: Mem, h: Heap, a: int, d: nat, b: int)
    requires HeapOK(m, h) && a in h.chunks && h.chunks[a].used && h.holeSize == 0 && a + h.chunks[a].size == h.top
    requires 0 < d <= h.topSize && d % 8 == 0 && b in h.chunks
    ensures var m' := m[a + HEADER := h.chunks[a].size + d + CINUSE + W(m, a + HEADER) % 2];
            && ChunkAt(m', ExpandTop(h, a, d), b)
            && ChunkAt(FreeWords(m', h.top + d, h.topSize - d), ExpandTop(h, a, d), b)
  {
    hide Tiled, Disjoint, Written, Joined, HeaderWord;
    ChunkFacts(h, a);
    ChunkFacts(h, b);
    WrittenChunk(m, h, a);
    WrittenChunk(m, h, b);
    Resized(h.chunks[a], h.chunks[a].size + d);
    if b != a {
      ApartChunks(h, a, b);
    }
    if !h.chunks[b].pinuse {
      PrevChunk(m, h, b);
      ChunkFacts(h, b - W(m, b));
    }
  }

  /** Chunk a grows into the top chunk, which keeps a part or becomes empty. */
  lemma ExpandTopOK(m: Mem, h: Heap, a: int, d: nat)
    requires HeapOK(m, h) && a in h.chunks && h.chunks[a].used && h.holeSize == 0 && a + h.chunks[a].size == h.top
    requires 0 < d <= h.topSize && d % 8 == 0
    ensures a + HEADER in m && h.top + d + HEADER in m && h.top + h.topSize in m && W(m, h.top + h.topSize + HEADER) == 0
    ensures var m1 := m[a + HEADER := h.chunks[a].size + d + CINUSE + W(m, a + HEADER) % 2];
            var m' := if d == h.topSize then m1 else FreeWords(m1, h.top + d, h.topSize - d);
            var h' := ExpandTop(h, a, d);
            HeapOK(m', h') && LiveKept(m, h.chunks, m', h'.chunks, a) && BlockKept(m, m', a, h.chunks[a].size)
  {
    hide Joined, ChunkOK, ChunkAt, Spare, LiveKept, Tiled, Disjoint;
    var h' := ExpandTop(h, a, d);
    var m1 := m[a + HEADER := h.chunks[a].size + d + CINUSE + W(m, a + HEADER) % 2];
    var m' := if d == h.topSize then m1 else FreeWords(m1, h.top + d, h.topSize - d);
    NextOf(h, a);
    BoundsOf(h);
    ExpandTopTiled(m, h, a, d);
    forall b | b in h'.chunks
      ensures ChunkAt(m', h', b)
    {
      ExpandTopChunkAt(m, h, a, d, b);
    }
    HeaderIsSpare(h, a, a);
    TopIsSpare(h, a);
    LiveByWords(m, h.chunks, m', h'.chunks, {a + HEADER, h.top + d + HEADER, h.top + h.topSize}, a);
  }

  lemma ExpandTopTiled(m: Mem, h: Heap, a: int, d: nat)
    requires HeapOK(m, h) && a in h.chunks && h.chunks[a].used && h.holeSize == 0 && a + h.chunks[a].size == h.top
    requires 0 < d <= h.topSize && d % 8 == 0
    ensures Tiled(ExpandTop(h, a, d))
  {
    hide Joined, ChunkOK, ChunkAt, Written, Disjoint;
    var h' := ExpandTop(h, a, d);
    FirstBoundary(h);
    ChunkFacts(h, a);
    AllBelowTop(h);
    forall b | b in h'.chunks
      ensures ChunkOK(h', b) && Joined(h', b)
    {
      ExpandTopChunk(h, a, d, b);
    }
    ExpandTopDisjoint(h, a, d);
  }

  lemma ExpandTopDisjoint(h: Heap, a: int, d: nat)
    requires Tiled(h) && a in h.chunks && a + h.chunks[a].size == h.top && d <= h.topSize
    ensures Disjoint(ExpandTop(h, a, d).chunks)
  {
    hide Tiled;
    AllBelowTop(h);
    var cs := ExpandTop(h, a, d).chunks;
    forall b, c | b in cs && c in cs && b < c
      ensures b + cs[b].size <= c
    {
      ApartChunks(h, b, c);
    }
  }

  // ----- moving the end of the heap

  /** kmstate.topChunk's header, its footer and the dummy header behind it. */
  function TopWords(m: Mem, top: int, size: nat): Mem {
    m[top + HEADER := size + PINUSE][top + size := size][top + size + HEADER := 0]
  }

  function MoveEnd(h: Heap, topSize: nat): Heap {
    h.(topSize := topSize, hi := h.hi + topSize - h.topSize)
  }

  /** Memory after the heap's end has moved agrees with memory before it wherever both exist. */
  ghost predicate EndMoved(m: Mem, m': Mem, lo: int, hi: int, hi': int) {
    Mapped(m', lo, hi') && forall w :: w in m && lo <= w <= hi - 4 && w <= hi' - 4 ==> w in m' && m'[w] == m[w]
  }

  lemma MoveEndOK(m: Mem, m': Mem, h: Heap, topSize: nat)
    requires HeapOK(m, h) && h.holeSize == 0 && topSize % 8 == 0
    requires h.hi + topSize - h.topSize <= h.lo + SIZE_LIMIT
    requires EndMoved(m, m', h.lo, h.hi, h.hi + topSize - h.topSize)
    ensures h.top + HEADER in m' && h.top + topSize in m' && h.top + topSize + HEADER in m'
    ensures var m'' := if topSize > 0 then TopWords(m', h.top, topSize) else m'[h.top + HEADER := 0];
            var h' := MoveEnd(h, topSize);
            HeapOK(m'', h') && LiveKept(m, h.chunks, m'', h'.chunks, 0)
  {
    hide Tiled, Disjoint, Joined, ChunkOK, ChunkAt;
    var m'' := if topSize > 0 then TopWords(m', h.top, topSize) else m'[h.top + HEADER := 0];
    var h' := MoveEnd(h, topSize);
    AllBelowTop(h);
    BoundsOf(h);
    MoveEndTiled(h, topSize);
    forall b | b in h'.chunks
      ensures ChunkAt(m'', h', b)
    {
      MoveEndChunkAt(m, m', h, topSize, b);
    }
    forall a, w | a in h.chunks && h.chunks[a].used && a + PAYLOAD <= w <= a + h.chunks[a].size
      ensures W(m'', w) == W(m, w)
    {
      ChunkFacts(h, a);
    }
  }

  lemma MoveEndTiled(h: Heap, topSize: nat)
    requires Tiled(h) && h.holeSize == 0 && topSize % 8 == 0
    requires h.hi + topSize - h.topSize <= h.lo + SIZE_LIMIT
    ensures Tiled(MoveEnd(h, topSize))
  {
    var h' := MoveEnd(h, topSize);
    forall b | b in h'.chunks
      ensures ChunkOK(h', b) && Joined(h', b)
    {
      ChunkFacts(h, b);
    }
  }

  lemma MoveEndChunkAt(m: Mem, m': Mem, h: Heap, topSize: nat, b: int)
    requires HeapOK(m, h) && h.holeSize == 0 && topSize % 8 == 0 && b in h.chunks
    requires EndMoved(m, m', h.lo, h.hi, h.hi + topSize - h.topSize)
    ensures ChunkAt(if topSize > 0 then TopWords(m', h.top, topSize) else m'[h.top + HEADER := 0], MoveEnd(h, topSize), b)
  {
    hide Tiled, Disjoint, Joined;
    ChunkFacts(h, b);
    BoundsOf(h);
    WrittenChunk(m, h, b);
    if !h.chunks[b].used {
      FreeHasNext(h, b);
      ChunkFacts(h, b + h.chunks[b].size);
    }
    assert Mapped(m, h.lo, h.hi);
    if !h.chunks[b].pinuse {
      PrevChunk(m, h, b);
    }
  }

  // ----- live blocks as a map

  /** The blocks in use: address and size of each chunk in use. */
  ghost function Live(cs: ChunkMap): map<int, nat> {
    map a | a in cs && cs[a].used :: cs[a].size
  }

  lemma LiveUseWhole(h: Heap, a: int)
    requires Tiled(h) && a in h.chunks && !h.chunks[a].used && a + h.chunks[a].size in h.chunks
    ensures Live(UseWhole(h, a).chunks) == Live(h.chunks)[a := h.chunks[a].size] && a !in Live(h.chunks)
  {
    FreeHasNext(h, a);
    ChunkFacts(h, a);
  }

  lemma LiveUsePart(h: Heap, a: int, n: nat)
    requires Tiled(h) && Splits(h, a, n)
    ensures Live(UsePart(h, a, n).chunks) == Live(h.chunks)[a := n] && a !in Live(h.chunks)
  {
    MiddleIsNoChunk(h, a, n);
  }

  lemma LiveUseTop(h: Heap, n: nat)
    requires Tiled(h) && n <= h.topSize
    ensures Live(UseTop(h, n).chunks) == Live(h.chunks)[h.top := n] && h.top !in Live(h.chunks)
  {
    AllBelowTop(h);
  }

  lemma LiveFreed(m: Mem, h: Heap, a: int)
    requires HeapOK(m, h) && a in h.chunks && h.chunks[a].used
    ensures Live(FreeRegion(m, h, a).chunks) == Live(h.chunks) - {a}
  {
    if !h.chunks[a].pinuse {
      PrevChunk(m, h, a);
    }
  }

  lemma LiveShorten(h: Heap, a: int, n: nat)
    requires Shortens(h, a, n)
    ensures Live(Shorten(h, a, n).chunks) == Live(h.chunks)[a := n]
  {
  }

  lemma LiveCloseAlone(h: Heap)
    requires Tiled(h) && h.holeSize > 0 && h.hole + h.holeSize in h.chunks
    ensures Live(CloseAlone(h).chunks) == Live(h.chunks)
  {
    HoleFacts(h);
  }

  lemma LiveCloseMerge(h: Heap)
    requires Tiled(h) && h.holeSize > 0 && h.hole + h.holeSize in h.chunks && !h.chunks[h.hole + h.holeSize].used
    ensures Live(CloseMerge(h).chunks) == Live(h.chunks)
  {
    HoleFacts(h);
  }

  lemma LiveExpandPart(h: Heap, a: int, d: nat)
    requires Tiled(h) && Expands(h, a) && d < h.chunks[a + h.chunks[a].size].size && d > 0
    ensures Live(ExpandPart(h, a, d).chunks) == Live(h.chunks)[a := h.chunks[a].size + d]
  {
    MiddleIsNoChunk(h, a + h.chunks[a].size, d);
  }

  lemma LiveExpandWhole(h: Heap, a: int)
    requires Tiled(h) && Expands(h, a)
    requires var e := a + h.chunks[a].size; e + h.chunks[e].size in h.chunks
    ensures Live(ExpandWhole(h, a).chunks) == Live(h.chunks)[a := h.chunks[a].size + h.chunks[a + h.chunks[a].size].size]
  {
    ChunkFacts(h, a);
    FreeHasNext(h, a + h.chunks[a].size);
    ChunkFacts(h, a + h.chunks[a].size);
  }

  lemma LiveExpandTop(h: Heap, a: int, d: nat)
    requires a in h.chunks && h.chunks[a].used && d <= h.topSize
    ensures Live(ExpandTop(h, a, d).chunks) == Live(h.chunks)[a := h.chunks[a].size + d]
  {
  }
}
