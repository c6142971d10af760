/** Handing out free chunks (the allocate_* and split_* functions of kmalloc_util.c). */
module HeapOps {
  import opened Bits
  import opened BinIndex
  import opened Trie
  import opened FreeLists
  import opened HeapState
  import opened Chunks
  import opened Bins
  import opened PagerOps

  ghost function HeapOf(s: KmState): Heap
    reads s`chunks, s`top, s`topSize, s`heapStart, s`heapSize
  {
    Heap(s.chunks, s.top, s.topSize, s.heapStart, s.heapStart + s.heapSize, 0, 0)
  }

  /** The binned chunks are the free chunks other than the designated victim dv and the chunk x. */
  ghost predicate BinnedBut(own: map<int, nat>, cs: ChunkMap, dv: int, x: int) {
    && (forall a :: a in own <==> a in cs && !cs[a].used && a != dv && a != x)
    && (forall a :: a in own ==> own[a] == cs[a].size)
  }

  ghost predicate VictimOK(cs: ChunkMap, dv: int, dvSize: nat) {
    if dv == 0 then dvSize == 0 else dv in cs && !cs[dv].used && cs[dv].size == dvSize
  }

  /** The frames of 16 megabytes of memory. */
  const MEMORY_FRAMES: nat := 4096

  /** The pager has its heap at addr and accounts for these frames, no more than 16 megabytes of memory: the bins are for
      chunks below that size. */
  ghost predicate PagerOK(p: Pager, addr: int, frames: set<int>)
    reads p
  {
    p.HeapOK() && p.heapAddr == addr && p.Account() == frames && |frames| <= MEMORY_FRAMES
  }

  /** Allocator and pager agree on the heap's place and size, a whole number of pages and never below the initial one. */
  ghost predicate SizesAgree(s: KmState)
    reads s`heapStart, s`heapSize, s`initialHeapSize, s`frames, s.pager
  {
    SizesOK(s.heapSize, s.pager.heapSize, s.initialHeapSize) && PagerOK(s.pager, s.heapStart, s.frames)
  }

  ghost predicate SizesOK(heapSize: nat, pagerSize: nat, initial: nat) {
    initial <= heapSize == pagerSize <= SIZE_LIMIT && initial % 4096 == 0 && heapSize % 4096 == 0
  }

  /** Heap and free lists are well formed on their own. */
  ghost predicate Core(s: KmState)
    reads s`mem, s`own, s`links, s`ring, s`shape, s`heapStart, s`heapSize, s`chunks, s`top, s`topSize
    reads s`sbin, s`tbin, s`sbinmap, s`tbinmap
  {
    s.BinsOK() && HeapOK(s.mem, HeapOf(s)) && OwnFree(s.own, s.chunks)
  }

  /** The allocator's invariant, while the free chunk x is on no list. */
  ghost predicate Loose(s: KmState, x: int)
    reads s`mem, s`own, s`links, s`ring, s`shape, s`heapStart, s`heapSize, s`chunks, s`top, s`topSize
    reads s`sbin, s`tbin, s`sbinmap, s`tbinmap, s`initialHeapSize, s`dv, s`dvSize, s`frames, s.pager
  {
    && Core(s) && SizesAgree(s)
    && BinnedBut(s.own, s.chunks, s.dv, x) && VictimOK(s.chunks, s.dv, s.dvSize)
  }

  /** The allocator's invariant. */
  ghost predicate Valid(s: KmState)
    reads s`mem, s`own, s`links, s`ring, s`shape, s`heapStart, s`heapSize, s`chunks, s`top, s`topSize
    reads s`sbin, s`tbin, s`sbinmap, s`tbinmap, s`initialHeapSize, s`dv, s`dvSize, s`frames, s.pager
  {
    Loose(s, 0)
  }

  lemma UnfoldCore(s: KmState)
    requires Core(s)
    ensures s.BinsOK() && HeapOK(s.mem, HeapOf(s)) && Tiled(HeapOf(s)) && OwnFree(s.own, s.chunks)
    ensures HeapOf(s) == Heap(s.chunks, s.top, s.topSize, s.heapStart, s.heapStart + s.heapSize, 0, 0)
  {
  }

  lemma HeapOfIs(s: KmState)
    ensures HeapOf(s) == Heap(s.chunks, s.top, s.topSize, s.heapStart, s.heapStart + s.heapSize, 0, 0)
  {
  }

  /** The size of a chunk. */
  lemma SizeOfChunk(s: KmState, a: int)
    requires Valid(s) && a in s.chunks
    ensures s.chunks[a].size % 8 == 0 && s.chunks[a].size >= MIN_CHUNK
  {
    hide *;
    ValidHeap(s);
    ChunkFacts(HeapOf(s), a);
    SizeOfOK(HeapOf(s), a);
  }

  lemma SizeOfOK(h: Heap, a: int)
    requires a in h.chunks && ChunkOK(h, a)
    ensures h.chunks[a].size % 8 == 0 && h.chunks[a].size >= MIN_CHUNK
  {
  }

  lemma FoldCore(s: KmState)
    requires s.BinsOK() && OwnFree(s.own, s.chunks)
    requires HeapOK(s.mem, Heap(s.chunks, s.top, s.topSize, s.heapStart, s.heapStart + s.heapSize, 0, 0))
    ensures Core(s)
  {
  }

  lemma FoldValid(s: KmState)
    requires s.BinsOK() && OwnFree(s.own, s.chunks)
    requires HeapOK(s.mem, Heap(s.chunks, s.top, s.topSize, s.heapStart, s.heapStart + s.heapSize, 0, 0))
    requires BinnedBut(s.own, s.chunks, s.dv, 0) && VictimOK(s.chunks, s.dv, s.dvSize)
    requires SizesAgree(s)
    ensures Valid(s)
  {
  }

  /** The words of a chunk from its header to its footer are clear of the binned chunks. */
  lemma ChunkIsClear(h: Heap, own: map<int, nat>, a: int)
    requires Tiled(h) && OwnFree(own, h.chunks) && a in h.chunks && a !in own
    ensures forall w :: a + HEADER <= w <= a + h.chunks[a].size ==> Clear(own, w)
    ensures h.lo <= a && a + h.chunks[a].size <= h.hi - 8
  {
    ChunkFacts(h, a);
    forall w | a + HEADER <= w <= a + h.chunks[a].size
      ensures Clear(own, w)
    {
      forall x | x in own
        ensures w < x + HEADER || x + own[x] <= w
      {
        ApartChunks(h, a, x);
      }
    }
  }

  lemma TopIsClear(h: Heap, own: map<int, nat>)
    requires Tiled(h) && OwnFree(own, h.chunks)
    ensures forall w :: h.top <= w ==> Clear(own, w)
    ensures h.lo <= h.top && h.top + h.topSize + 8 <= h.hi
  {
    AllBelowTop(h);
  }

  lemma LiveTrans(m: Mem, cs: ChunkMap, m': Mem, cs': ChunkMap, m'': Mem, cs'': ChunkMap, x: int)
    requires LiveKept(m, cs, m', cs', x) && LiveKept(m', cs', m'', cs'', x)
    ensures LiveKept(m, cs, m'', cs'', x)
  {
    forall a | a in cs && cs[a].used && a != x
      ensures a in cs'' && cs''[a].used && cs''[a].size == cs[a].size && BlockKept(m, m'', a, cs[a].size)
    {
      assert BlockKept(m, m', a, cs[a].size) && BlockKept(m', m'', a, cs[a].size);
    }
  }

  // ----- handing out a free chunk, whole or split

  lemma BeforeWhole(s: KmState, a: int)
    requires Core(s) && a in s.chunks && !s.chunks[a].used && a !in s.own
    ensures var h, e := HeapOf(s), a + s.chunks[a].size;
            && h.chunks == s.chunks && e in s.chunks && e != a && a + HEADER in s.mem && e + HEADER in s.mem
            && Clear(s.own, a + HEADER) && Clear(s.own, e + HEADER)
            && s.heapStart <= a + HEADER <= s.heapStart + s.heapSize - 4
            && s.heapStart <= e + HEADER <= s.heapStart + s.heapSize - 4
            && SizeOf(OrCinuse(s.mem[a + HEADER])) == s.chunks[a].size
            && var m' := s.mem[a + HEADER := OrCinuse(s.mem[a + HEADER])];
            && var m'' := m'[e + HEADER := OrPinuse(m'[e + HEADER])];
            && HeapOK(m'', UseWhole(h, a)) && LiveKept(s.mem, s.chunks, m'', UseWhole(h, a).chunks, 0)
    ensures OwnFree(s.own, UseWhole(HeapOf(s), a).chunks)
    ensures Live(UseWhole(HeapOf(s), a).chunks) == Live(s.chunks)[a := s.chunks[a].size] && a !in Live(s.chunks)
  {
    hide ChunkAt, Joined, ChunkOK, Disjoint, LiveKept;
    var h, e := HeapOf(s), a + s.chunks[a].size;
    UseWholeOK(s.mem, h, a);
    FreeHasNext(h, a);
    ChunkFacts(h, a);
    ChunkFacts(h, e);
    WrittenChunk(s.mem, h, a);
    Flags(h.chunks[a]);
    Flags(h.chunks[a].(used := true));
    ChunkIsClear(h, s.own, a);
    ChunkIsClear(h, s.own, e);
    LiveUseWhole(h, a);
  }

  /** chunk->header |= CINUSE; NEXTCHUNK(chunk)->header |= PINUSE */
  method TakeWhole(s: KmState, a: int)
    requires Core(s) && a in s.chunks && !s.chunks[a].used && a !in s.own
    modifies s`mem, s`chunks
    ensures Core(s) && a + old(s.chunks)[a].size in old(s.chunks)
    ensures s.chunks == UseWhole(old(HeapOf(s)), a).chunks
    ensures LiveKept(old(s.mem), old(s.chunks), s.mem, s.chunks, 0)
    ensures Live(s.chunks) == Live(old(s.chunks))[a := old(s.chunks)[a].size] && a !in Live(old(s.chunks))
  {
    hide *;
    UnfoldCore(s);
    BeforeWhole(s, a);
    ghost var h := HeapOf(s);
    s.Poke(a + HEADER, OrCinuse(s.mem[a + HEADER]));
    var e := a + SizeOf(s.mem[a + HEADER]);
    s.Poke(e + HEADER, OrPinuse(s.mem[e + HEADER]));
    s.chunks := UseWhole(h, a).chunks;
    UseWholeHeap(h, a);
    FoldCore(s);
  }

  lemma UseWholeHeap(h: Heap, a: int)
    requires a in h.chunks && a + h.chunks[a].size in h.chunks
    ensures UseWhole(h, a) == Heap(UseWhole(h, a).chunks, h.top, h.topSize, h.lo, h.hi, h.hole, h.holeSize)
  {
  }

  lemma PartPlaces(m: Mem, h: Heap, own: map<int, nat>, a: int, n: nat)
    requires HeapOK(m, h) && OwnFree(own, h.chunks) && Splits(h, a, n) && a !in own
    ensures a in h.chunks
    ensures var size := h.chunks[a].size;
            && n < size && a + HEADER in m
            && Clear(own, a + HEADER) && Clear(own, a + n + HEADER) && Clear(own, a + size)
            && h.lo <= a + HEADER <= a + n + HEADER <= a + size <= h.hi - 4
            && SizeOf(m[a + HEADER]) == size && SizeOf(size - n + PINUSE) == size - n
    ensures OwnFree(own, UsePart(h, a, n).chunks) && a + n !in h.chunks
  {
    hide Written, HeaderWord;
    MiddleIsNoChunk(h, a, n);
    HeaderSize(m, h, a);
    ChunkFacts(h, a);
    ChunkIsClear(h, own, a);
    hide Tiled;
  }

  lemma BeforePart(s: KmState, a: int, n: nat)
    requires Core(s) && Splits(HeapOf(s), a, n) && a !in s.own
    ensures a in s.chunks
    ensures var h, size := HeapOf(s), s.chunks[a].size;
            && h.chunks == s.chunks && n < size && a + HEADER in s.mem
            && Clear(s.own, a + HEADER) && Clear(s.own, a + n + HEADER) && Clear(s.own, a + size)
            && s.heapStart <= a + HEADER <= a + n + HEADER <= a + size <= s.heapStart + s.heapSize - 4
            && SizeOf(s.mem[a + HEADER]) == size && SizeOf(size - n + PINUSE) == size - n
            && var m' := UsePartWords(s.mem, a, n, size);
            && HeapOK(m', UsePart(h, a, n)) && LiveKept(s.mem, s.chunks, m', UsePart(h, a, n).chunks, 0)
    ensures OwnFree(s.own, UsePart(HeapOf(s), a, n).chunks) && a + n !in s.chunks
    ensures Live(UsePart(HeapOf(s), a, n).chunks) == Live(s.chunks)[a := n] && a !in Live(s.chunks)
  {
    hide *;
    UnfoldCore(s);
    var h := HeapOf(s);
    PartPlaces(s.mem, h, s.own, a, n);
    UsePartOK(s.mem, h, a, n);
    LiveUsePart(h, a, n);
  }

  lemma UsePartWordsDef(m: Mem, a: int, n: nat, size: nat)
    requires n <= size
    ensures UsePartWords(m, a, n, size) ==
              m[a + HEADER := n + PINUSE + CINUSE][a + n + HEADER := size - n + PINUSE][a + size := size - n]
  {
  }

  /** The chunk gets n bytes and is in use; what is left of it becomes a free chunk with header and footer. */
  method TakePart(s: KmState, a: int, n: nat)
    requires Core(s) && Splits(HeapOf(s), a, n) && a !in s.own
    modifies s`mem, s`chunks
    ensures Core(s)
    ensures s.chunks == UsePart(old(HeapOf(s)), a, n).chunks && a + n !in old(s.chunks)
    ensures LiveKept(old(s.mem), old(s.chunks), s.mem, s.chunks, 0)
    ensures Live(s.chunks) == Live(old(s.chunks))[a := n] && a !in Live(old(s.chunks))
  {
    hide *;
    UnfoldCore(s);
    BeforePart(s, a, n);
    ghost var h := HeapOf(s);
    var rest := SizeOf(s.mem[a + HEADER]) - n;
    UsePartWordsDef(s.mem, a, n, s.chunks[a].size);
    s.Poke(a + HEADER, n + PINUSE + CINUSE);
    s.Poke(a + n + HEADER, rest + PINUSE);
    s.Poke(a + n + rest, rest);
    s.chunks := UsePart(h, a, n).chunks;
    UsePartHeap(h, a, n);
    FoldCore(s);
  }

  lemma UsePartHeap(h: Heap, a: int, n: nat)
    requires a in h.chunks && n <= h.chunks[a].size
    ensures UsePart(h, a, n) == Heap(UsePart(h, a, n).chunks, h.top, h.topSize, h.lo, h.hi, h.hole, h.holeSize)
  {
  }

  // ----- the designated victim

  lemma LooseFacts(s: KmState, x: int)
    requires Loose(s, x)
    ensures Core(s) && s.BinsOK() && Tiled(HeapOf(s)) && OwnFree(s.own, s.chunks)
    ensures x !in s.own && s.dv !in s.own
    ensures s.dv != 0 ==> s.dv in s.chunks && !s.chunks[s.dv].used && s.chunks[s.dv].size == s.dvSize
    ensures s.dv == 0 ==> s.dvSize == 0 < MIN_CHUNK
    ensures s.dvSize % 8 == 0 && s.dvSize < SIZE_LIMIT
    ensures s.dv != 0 && s.dv != x ==> Binnable(s.mem, s.own, s.heapStart, s.heapStart + s.heapSize, s.dv, s.dvSize)
    ensures s.dv != 0 ==> s.dvSize >= MIN_CHUNK
  {
    if s.dv != 0 {
      ChunkFacts(HeapOf(s), s.dv);
      if s.dv != x {
        FreeIsBinnable(s.mem, HeapOf(s), s.own, s.dv);
      }
    }
  }

  /** A free chunk that is on no list could go on one. */
  lemma FreeIsBinnable(m: Mem, h: Heap, own: map<int, nat>, a: int)
    requires HeapOK(m, h) && OwnFree(own, h.chunks) && a in h.chunks && !h.chunks[a].used && a !in own
    ensures Binnable(m, own, h.lo, h.hi, a, h.chunks[a].size)
  {
    ChunkFacts(h, a);
    WrittenChunk(m, h, a);
    FreeHasNext(h, a);
    forall y | y in own
      ensures a + h.chunks[a].size <= y || y + own[y] <= a
    {
      ApartChunks(h, a, y);
    }
  }

  lemma BinningKept(m: Mem, m': Mem, h: Heap, own: map<int, nat>, own': map<int, nat>, x: int)
    requires HeapOK(m, h) && OwnFree(own, h.chunks) && x in h.chunks && !h.chunks[x].used
    requires own' == own[x := h.chunks[x].size] && KeptOutside(m, m', own')
    ensures HeapOK(m', h) && LiveKept(m, h.chunks, m', h.chunks, 0) && OwnFree(own', h.chunks)
  {
    KeptByBins(m, m', h, own');
  }

  lemma BinnedOne(own: map<int, nat>, own': map<int, nat>, cs: ChunkMap, dv: int, x: int)
    requires BinnedBut(own, cs, dv, x) && dv in cs && !cs[dv].used && own' == own[dv := cs[dv].size] && dv != x
    ensures BinnedBut(own', cs, x, 0) || 0 in cs
  {
  }

  /** No chunk is at address 0. */
  lemma NoChunkAtZero(h: Heap)
    requires Tiled(h)
    ensures 0 !in h.chunks
  {
    if 0 in h.chunks {
      ChunkFacts(h, 0);
    }
  }

  /** replace_dv: the free chunk x becomes the designated victim; the old one goes into its bin. */
  method ReplaceDv(s: KmState, x: int)
    requires Loose(s, x) && x in s.chunks && !s.chunks[x].used && x != s.dv
    modifies s`mem, s`links, s`own, s`ring, s`shape, s`sbin, s`sbinmap, s`tbin, s`tbinmap, s`dv, s`dvSize
    ensures Valid(s) && s.dv == x && s.dvSize == s.chunks[x].size
    ensures LiveKept(old(s.mem), s.chunks, s.mem, s.chunks, 0)
  {
    hide *;
    LooseFacts(s, x);
    UnfoldCore(s);
    UnfoldLoose(s, x);
    NoChunkAtZero(HeapOf(s));
    ghost var m0, own0, h, dv0 := s.mem, s.own, HeapOf(s), s.dv;
    if s.dv != 0 {
      BinChunk(s, s.dv, s.dvSize);
      BinningKept(m0, s.mem, h, own0, s.own, dv0);
      BinnedOne(own0, s.own, s.chunks, dv0, x);
    } else {
      BinnedNone(own0, s.chunks, x);
      LiveSame(m0, s.chunks);
    }
    FoldCore(s);
    s.dv := x;
    HeaderSize(s.mem, h, x);
    s.dvSize := SizeOf(s.mem[x + HEADER]);
    FoldCore(s);
    FoldLoose(s, 0);
  }

  lemma BinnedNone(own: map<int, nat>, cs: ChunkMap, x: int)
    requires BinnedBut(own, cs, 0, x) && 0 !in cs
    ensures BinnedBut(own, cs, x, 0)
  {
  }

  lemma LiveSame(m: Mem, cs: ChunkMap)
    ensures LiveKept(m, cs, m, cs, 0)
  {
  }

  lemma HeaderSize(m: Mem, h: Heap, a: int)
    requires HeapOK(m, h) && a in h.chunks
    ensures a + HEADER in m && SizeOf(m[a + HEADER]) == h.chunks[a].size && InUse(m[a + HEADER]) == h.chunks[a].used
    ensures PrevInUse(m[a + HEADER]) == h.chunks[a].pinuse
  {
    ChunkFacts(h, a);
    WrittenChunk(m, h, a);
    Flags(h.chunks[a]);
  }

  lemma UnfoldLoose(s: KmState, x: int)
    requires Loose(s, x)
    ensures Core(s) && SizesAgree(s) && BinnedBut(s.own, s.chunks, s.dv, x) && VictimOK(s.chunks, s.dv, s.dvSize)
  {
  }

  lemma ValidHeap(s: KmState)
    requires Valid(s)
    ensures HeapOK(s.mem, HeapOf(s)) && Tiled(HeapOf(s))
    ensures HeapOf(s) == Heap(s.chunks, s.top, s.topSize, s.heapStart, s.heapStart + s.heapSize, 0, 0)
  {
    hide *;
    ValidIsLoose(s);
    UnfoldLoose(s, 0);
    UnfoldCore(s);
  }

  lemma FoldLoose(s: KmState, x: int)
    requires Core(s) && SizesAgree(s) && BinnedBut(s.own, s.chunks, s.dv, x)
    requires if s.dv == 0 then s.dvSize == 0
             else s.dv in s.chunks && !s.chunks[s.dv].used && s.chunks[s.dv].size == s.dvSize
    ensures Loose(s, x) && (x == 0 ==> Valid(s))
  {
  }

  // ----- what an allocation does

  ghost function SizeAt(cs: ChunkMap, a: int): nat {
    if a in cs then cs[a].size else 0
  }

  lemma SizeAtIs(cs: ChunkMap, a: int)
    ensures a in cs ==> SizeAt(cs, a) == cs[a].size
  {
  }

  lemma SizeAtLive(cs: ChunkMap, cs': ChunkMap, a: int, n: nat)
    requires Live(cs') == Live(cs)[a := n]
    ensures SizeAt(cs', a) == n
  {
    assert a in Live(cs');
  }

  /** A block of n bytes is cut from the binned chunk c, and the rest becomes the designated victim, unless the rest is too small
      for a chunk: less than 16 bytes, or 16 bytes of a tree's chunk.  Then the block is the whole chunk. */
  ghost predicate CutFrom(own: map<int, nat>, dv: int, dvSize: nat, n: nat, c: int, size: nat, dv': int, dvSize': nat) {
    && c in own
    && if own[c] < n + MIN_CHUNK || (own[c] == n + MIN_CHUNK && own[c] >= MIN_LARGE)
       then size == own[c] && dv' == dv && dvSize' == dvSize
       else size == n && dv' == c + n && n + dvSize' == own[c]
  }

  lemma CutWhole(own: map<int, nat>, dv: int, dvSize: nat, n: nat, c: int)
    requires c in own && (own[c] < n + MIN_CHUNK || (own[c] == n + MIN_CHUNK && own[c] >= MIN_LARGE))
    ensures CutFrom(own, dv, dvSize, n, c, own[c], dv, dvSize)
  {
  }

  lemma CutPart(own: map<int, nat>, dv: int, dvSize: nat, n: nat, c: int)
    requires c in own && n + MIN_CHUNK <= own[c] && (own[c] < MIN_LARGE || n + MIN_CHUNK < own[c])
    ensures n <= own[c] && CutFrom(own, dv, dvSize, n, c, n, c + n, own[c] - n)
  {
  }

  /** A block of n bytes is cut from the designated victim; a rest of less than 16 bytes goes with it. */
  ghost predicate CutFromVictim(dv: int, dvSize: nat, n: nat, c: int, size: nat, dv': int, dvSize': nat) {
    && c == dv && n <= dvSize
    && if dvSize - n < MIN_CHUNK then size == dvSize && dv' == 0 && dvSize' == 0
       else size == n && dv' == dv + n && dvSize' == dvSize - n
  }

  lemma VictimCut(dv: int, dvSize: nat, n: nat, c: int, size: nat, dv': int, dvSize': nat)
    ensures CutFromVictim(dv, dvSize, n, c, size, dv', dvSize') <==>
              && c == dv && n <= dvSize
              && if dvSize - n < MIN_CHUNK then size == dvSize && dv' == 0 && dvSize' == 0
                 else size == n && dv' == dv + n && dvSize' == dvSize - n
  {
  }

  /** Chunk a was handed out with at least n and at most n + 16 bytes; all other blocks are as they were. */
  ghost predicate Granted(m: Mem, cs: ChunkMap, m': Mem, cs': ChunkMap, a: int, n: nat) {
    && a > 0 && a !in Live(cs) && a in cs' && n <= cs'[a].size <= n + MIN_CHUNK
    && Live(cs') == Live(cs)[a := cs'[a].size]
    && LiveKept(m, cs, m', cs', 0)
  }

  /** The answer of an allocation: NULL and all blocks are as they were, or the payload of a new block. */
  ghost predicate Answer(m: Mem, cs: ChunkMap, m': Mem, cs': ChunkMap, r: int, n: nat) {
    if r == 0 then Live(cs') == Live(cs) && LiveKept(m, cs, m', cs', 0) else Granted(m, cs, m', cs', r - PAYLOAD, n)
  }

  lemma AnswerNull(m: Mem, cs: ChunkMap, m': Mem, n: nat)
    requires LiveKept(m, cs, m', cs, 0)
    ensures Answer(m, cs, m', cs, 0, n)
  {
  }

  lemma AnswerBlock(m: Mem, m1: Mem, cs: ChunkMap, m': Mem, cs': ChunkMap, a: int, n: nat)
    requires LiveKept(m, cs, m1, cs, 0) && Granted(m1, cs, m', cs', a, n)
    ensures a + PAYLOAD != 0 && Answer(m, cs, m', cs', a + PAYLOAD, n)
  {
    LiveSame(m', cs');
    GrantedWithin(m, m1, cs, m', cs', m', a, n);
  }

  lemma GrantedBy(m: Mem, cs: ChunkMap, m': Mem, cs': ChunkMap, a: int, n: nat, size: nat)
    requires LiveKept(m, cs, m', cs', 0) && a !in Live(cs) && a > 0
    requires Live(cs') == Live(cs)[a := size] && n <= size <= n + MIN_CHUNK
    ensures Granted(m, cs, m', cs', a, n)
  {
    assert a in Live(cs');
  }

  /** Work on the free lists before or after does not change what is granted. */
  lemma GrantedWithin(m: Mem, m1: Mem, cs: ChunkMap, m2: Mem, cs': ChunkMap, m': Mem, a: int, n: nat)
    requires LiveKept(m, cs, m1, cs, 0) && Granted(m1, cs, m2, cs', a, n) && LiveKept(m2, cs', m', cs', 0)
    ensures Granted(m, cs, m', cs', a, n)
  {
    LiveTrans(m, cs, m1, cs, m2, cs', 0);
    LiveTrans(m, cs, m2, cs', m', cs', 0);
  }

  /** The chunk that was on no list is handed out. */
  lemma BinnedWhole(own: map<int, nat>, h: Heap, a: int, dv: int, x: int)
    requires BinnedBut(own, h.chunks, dv, x) && Tiled(h) && a in h.chunks && !h.chunks[a].used
    requires a == dv || a == x
    requires a + h.chunks[a].size in h.chunks
    ensures BinnedBut(own, UseWhole(h, a).chunks, if a == dv then 0 else dv, if a == x then 0 else x)
  {
    hide Tiled;
    NoChunkAtZero(h);
    FreeHasNext(h, a);
  }

  lemma BinnedPart(own: map<int, nat>, h: Heap, a: int, n: nat, dv: int, x: int)
    requires BinnedBut(own, h.chunks, dv, x) && Splits(h, a, n) && a + n !in h.chunks && dv != a + n && x != a + n
    requires a == dv || a == x
    ensures BinnedBut(own, UsePart(h, a, n).chunks, if a == dv then a + n else dv, if a == x then a + n else x)
  {
  }

  lemma UseWholeFree(h: Heap, a: int, dv: int, dvSize: nat)
    requires Tiled(h) && a in h.chunks && !h.chunks[a].used && a + h.chunks[a].size in h.chunks
    requires VictimOK(h.chunks, dv, dvSize) && dv != a
    ensures VictimOK(UseWhole(h, a).chunks, dv, dvSize)
  {
  }

  lemma UsePartFree(h: Heap, a: int, n: nat, dv: int, dvSize: nat)
    requires Splits(h, a, n) && a + n !in h.chunks && a != 0 && VictimOK(h.chunks, dv, dvSize) && dv != a
    ensures VictimOK(UsePart(h, a, n).chunks, dv, dvSize)
    ensures a + n in UsePart(h, a, n).chunks && !UsePart(h, a, n).chunks[a + n].used
    ensures UsePart(h, a, n).chunks[a + n].size == h.chunks[a].size - n
  {
  }

  lemma SplitsAt(h: Heap, a: int, n: nat)
    requires Tiled(h) && h.holeSize == 0 && a in h.chunks && !h.chunks[a].used
    requires MIN_CHUNK <= n && n % 8 == 0 && n + MIN_CHUNK <= h.chunks[a].size
    ensures Splits(h, a, n)
  {
  }

  /** Free chunk x, on no list, is handed out. */
  method GiveWhole(s: KmState, x: int, ghost n: nat)
    requires Loose(s, x) && x in s.chunks && !s.chunks[x].used && x != s.dv
    requires n <= s.chunks[x].size <= n + MIN_CHUNK
    modifies s`mem, s`chunks
    ensures Valid(s) && Granted(old(s.mem), old(s.chunks), s.mem, s.chunks, x, n)
    ensures SizeAt(s.chunks, x) == old(s.chunks)[x].size
  {
    hide *;
    UnfoldLoose(s, x);
    LooseFacts(s, x);
    UnfoldCore(s);
    ghost var h := HeapOf(s);
    ChunkAddress(h, x);
    TakeWhole(s, x);
    SizeAtLive(h.chunks, s.chunks, x, h.chunks[x].size);
    BinnedWhole(s.own, h, x, s.dv, x);
    UseWholeFree(h, x, s.dv, s.dvSize);
    VictimDef(s.chunks, s.dv, s.dvSize);
    FoldLoose(s, 0);
    GrantedBy(old(s.mem), h.chunks, s.mem, s.chunks, x, n, h.chunks[x].size);
  }

  /** Free chunk x, on no list, is handed out with n bytes; the rest becomes the designated victim. */
  method GivePart(s: KmState, x: int, n: nat)
    requires Loose(s, x) && x in s.chunks && !s.chunks[x].used && x != s.dv
    requires MIN_CHUNK <= n && n % 8 == 0 && n + MIN_CHUNK <= s.chunks[x].size
    modifies s`mem, s`chunks, s`links, s`own, s`ring, s`shape, s`sbin, s`sbinmap, s`tbin, s`tbinmap, s`dv, s`dvSize
    ensures Valid(s) && Granted(old(s.mem), old(s.chunks), s.mem, s.chunks, x, n)
    ensures SizeAt(s.chunks, x) == n && s.dv == x + n && n + s.dvSize == old(s.chunks)[x].size
  {
    hide *;
    UnfoldLoose(s, x);
    LooseFacts(s, x);
    UnfoldCore(s);
    ghost var h := HeapOf(s);
    ChunkAddress(h, x);
    SplitsAt(h, x, n);
    TakePart(s, x, n);
    SizeAtLive(h.chunks, s.chunks, x, n);
    BinnedPart(s.own, h, x, n, s.dv, x);
    UsePartFree(h, x, n, s.dv, s.dvSize);
    VictimDef(s.chunks, s.dv, s.dvSize);
    FoldLoose(s, x + n);
    ghost var m1 := s.mem;
    ReplaceDv(s, x + n);
    GrantedBy(old(s.mem), h.chunks, m1, s.chunks, x, n, n);
    LiveSame(old(s.mem), h.chunks);
    GrantedWithin(old(s.mem), old(s.mem), h.chunks, m1, s.chunks, s.mem, x, n);
  }

  lemma ChunkAddress(h: Heap, x: int)
    requires Tiled(h) && x in h.chunks
    ensures x > 0 && x + h.chunks[x].size + 8 <= h.hi && h.chunks[x].size % 8 == 0 && h.chunks[x].size >= MIN_CHUNK
    ensures h.holeSize == 0 && !h.chunks[x].used ==> x + h.chunks[x].size in h.chunks
  {
    ChunkFacts(h, x);
    if h.holeSize == 0 && !h.chunks[x].used {
      FreeHasNext(h, x);
    }
  }

  lemma VictimDef(cs: ChunkMap, dv: int, dvSize: nat)
    ensures VictimOK(cs, dv, dvSize) <==>
            if dv == 0 then dvSize == 0 else dv in cs && !cs[dv].used && cs[dv].size == dvSize
  {
  }

  // ----- allocate_dv

  /** allocate_dv */
  method AllocateDv(s: KmState, n: nat) returns (r: int)
    requires Valid(s) && MIN_CHUNK <= n && n % 8 == 0
    modifies s`mem, s`chunks, s`dv, s`dvSize
    ensures Valid(s)
    ensures r == 0 <==> old(s.dvSize) < n
    ensures if r == 0 then s.dv == old(s.dv) && s.dvSize == old(s.dvSize)
            else CutFromVictim(old(s.dv), old(s.dvSize), n, r - PAYLOAD, SizeAt(s.chunks, r - PAYLOAD), s.dv, s.dvSize)
    ensures Answer(old(s.mem), old(s.chunks), s.mem, s.chunks, r, n)
  {
    hide *;
    ValidIsLoose(s);
    UnfoldLoose(s, 0);
    LooseFacts(s, 0);
    UnfoldCore(s);
    LiveSame(s.mem, s.chunks);
    if s.dv == 0 || s.dvSize < n {
      AnswerNull(s.mem, s.chunks, s.mem, n);
      return 0;
    }
    ghost var h := HeapOf(s);
    var chunk := s.dv;
    ChunkAddress(h, chunk);
    NoChunkAtZero(h);
    if s.dvSize - n < MIN_CHUNK {
      TakeWhole(s, chunk);
      s.dv := 0;
      s.dvSize := 0;
      SizeAtLive(h.chunks, s.chunks, chunk, h.chunks[chunk].size);
      BinnedWhole(s.own, h, chunk, chunk, 0);
      GrantedBy(old(s.mem), h.chunks, s.mem, s.chunks, chunk, n, h.chunks[chunk].size);
    } else {
      var splitSize := s.dvSize - n;
      SplitsAt(h, chunk, n);
      TakePart(s, chunk, n);
      s.dv := chunk + n;
      s.dvSize := splitSize;
      SizeAtLive(h.chunks, s.chunks, chunk, n);
      BinnedPart(s.own, h, chunk, n, chunk, 0);
      VictimDef(h.chunks, 0, 0);
      UsePartFree(h, chunk, n, 0, 0);
      GrantedBy(old(s.mem), h.chunks, s.mem, s.chunks, chunk, n, n);
    }
    FoldLoose(s, 0);
    VictimCut(chunk, old(s.dvSize), n, chunk, SizeAt(s.chunks, chunk), s.dv, s.dvSize);
    AnswerBlock(old(s.mem), old(s.mem), h.chunks, s.mem, s.chunks, chunk, n);
    r := chunk + PAYLOAD;
  }

  lemma ValidIsLoose(s: KmState)
    ensures Valid(s) <==> Loose(s, 0)
  {
  }

  // ----- allocate_sbin, split_sbin

  /** The chunk x has left its list. */
  lemma Unbinned(own: map<int, nat>, cs: ChunkMap, dv: int, x: int)
    requires BinnedBut(own, cs, dv, 0) && OwnFree(own, cs) && 0 !in cs
    requires x != 0 ==> x in own
    ensures BinnedBut(own - {x}, cs, dv, x) && OwnFree(own - {x}, cs)
    ensures x != 0 ==> x in cs && !cs[x].used && x != dv && cs[x].size == own[x]
    ensures x == 0 ==> own - {x} == own
  {
  }

  /** unbin_chunk on a chunk of a valid heap. */
  lemma AfterUnbin(s: KmState, m: Mem, own: map<int, nat>, x: int)
    requires BinnedBut(own, s.chunks, s.dv, 0) && OwnFree(own, s.chunks) && HeapOK(m, HeapOf(s)) && x in own && x != 0
    requires KeptOutside(m, s.mem, own) && s.BinsOK() && s.own == own - {x}
    requires SizesAgree(s) && VictimOK(s.chunks, s.dv, s.dvSize)
    ensures Loose(s, x) && x in s.chunks && !s.chunks[x].used && x != s.dv && s.chunks[x].size == own[x]
    ensures LiveKept(m, s.chunks, s.mem, s.chunks, 0)
  {
    hide Tiled;
    NoChunkAtZero(HeapOf(s));
    KeptByBins(m, s.mem, HeapOf(s), own);
    Unbinned(own, s.chunks, s.dv, x);
  }

  /** A small bin gives up its first chunk. */
  method PopSmall(s: KmState, index: nat) returns (chunk: int)
    requires Valid(s) && index < NBINS
    modifies s`mem, s`links, s`own, s`ring, s`sbin, s`sbinmap
    ensures chunk != 0 <==> SizePresent(old(s.own), 8 * index)
    ensures chunk == 0 ==> Valid(s)
    ensures chunk != 0 ==> Loose(s, chunk) && chunk in s.chunks && !s.chunks[chunk].used && chunk != s.dv
    ensures chunk != 0 ==> s.chunks[chunk].size == 8 * index
    ensures chunk != 0 ==> IsFront(old(s.own), old(s.ring), chunk) && chunk in old(s.own) && old(s.own)[chunk] == 8 * index
    ensures LiveKept(old(s.mem), s.chunks, s.mem, s.chunks, 0)
  {
    hide *;
    ValidIsLoose(s);
    UnfoldLoose(s, 0);
    LooseFacts(s, 0);
    UnfoldCore(s);
    ghost var own, m := s.own, s.mem;
    chunk := PopBin(s, index);
    if chunk != 0 {
      AfterUnbin(s, m, own, chunk);
    } else {
      KeptByBins(m, s.mem, HeapOf(s), own);
      FoldCore(s);
      VictimDef(s.chunks, s.dv, s.dvSize);
      FoldLoose(s, 0);
    }
  }

  /** The block at r of n bytes is cut from the first of the binned chunks of that size. */
  ghost predicate Provides(own: map<int, nat>, ring: Rings, dv: int, dvSize: nat, n: nat, r: int, size: nat, cs': ChunkMap,
                           dv': int, dvSize': nat) {
    && IsFront(own, ring, r - PAYLOAD) && own[r - PAYLOAD] == size
    && CutFrom(own, dv, dvSize, n, r - PAYLOAD, SizeAt(cs', r - PAYLOAD), dv', dvSize')
  }

  lemma ProvidesIs(own: map<int, nat>, ring: Rings, dv: int, dvSize: nat, n: nat, r: int, size: nat, cs': ChunkMap,
                   dv': int, dvSize': nat)
    ensures Provides(own, ring, dv, dvSize, n, r, size, cs', dv', dvSize') <==>
              && IsFront(own, ring, r - PAYLOAD) && r - PAYLOAD in own && own[r - PAYLOAD] == size
              && CutFrom(own, dv, dvSize, n, r - PAYLOAD, SizeAt(cs', r - PAYLOAD), dv', dvSize')
  {
    hide CutFrom, SizeAt;
  }

  lemma SmallSizes(index: nat)
    ensures index < NBINS ==> 8 * index < MIN_LARGE
  {
  }

  /** allocate_sbin: a chunk of the bin's size, whole. */
  method AllocateSbin(s: KmState, index: nat, ghost n: nat) returns (r: int)
    requires Valid(s) && index < NBINS && n <= 8 * index < n + MIN_CHUNK
    modifies s`mem, s`chunks, s`links, s`own, s`ring, s`sbin, s`sbinmap
    ensures Valid(s) && (r != 0 <==> SizePresent(old(s.own), 8 * index))
    ensures r != 0 ==> Provides(old(s.own), old(s.ring), s.dv, s.dvSize, n, r, 8 * index, s.chunks, s.dv, s.dvSize)
    ensures Answer(old(s.mem), old(s.chunks), s.mem, s.chunks, r, n)
  {
    hide *;
    var chunk := PopSmall(s, index);
    if chunk == 0 {
      AnswerNull(old(s.mem), s.chunks, s.mem, n);
      return 0;
    }
    ghost var m1 := s.mem;
    CutWhole(old(s.own), s.dv, s.dvSize, n, chunk);
    GiveWhole(s, chunk, n);
    ProvidesIs(old(s.own), old(s.ring), s.dv, s.dvSize, n, chunk + PAYLOAD, 8 * index, s.chunks, s.dv, s.dvSize);
    AnswerBlock(old(s.mem), m1, old(s.chunks), s.mem, s.chunks, chunk, n);
    r := chunk + PAYLOAD;
  }

  /** split_sbin: a chunk of the bin's size, whose rest becomes the designated victim. */
  method SplitSbin(s: KmState, index: nat, n: nat) returns (r: int)
    requires Valid(s) && index < NBINS && MIN_CHUNK <= n && n % 8 == 0 && n + MIN_CHUNK <= 8 * index
    modifies s`mem, s`chunks, s`links, s`own, s`ring, s`shape, s`sbin, s`sbinmap, s`tbin, s`tbinmap, s`dv, s`dvSize
    ensures Valid(s) && (r != 0 <==> SizePresent(old(s.own), 8 * index))
    ensures r != 0 ==> Provides(old(s.own), old(s.ring), old(s.dv), old(s.dvSize), n, r, 8 * index, s.chunks, s.dv, s.dvSize)
    ensures Answer(old(s.mem), old(s.chunks), s.mem, s.chunks, r, n)
  {
    hide *;
    var chunk := PopSmall(s, index);
    if chunk == 0 {
      AnswerNull(old(s.mem), s.chunks, s.mem, n);
      return 0;
    }
    ghost var m1 := s.mem;
    SmallSizes(index);
    CutPart(old(s.own), old(s.dv), old(s.dvSize), n, chunk);
    GivePart(s, chunk, n);
    ProvidesIs(old(s.own), old(s.ring), old(s.dv), old(s.dvSize), n, chunk + PAYLOAD, 8 * index, s.chunks, s.dv, s.dvSize);
    AnswerBlock(old(s.mem), m1, old(s.chunks), s.mem, s.chunks, chunk, n);
    r := chunk + PAYLOAD;
  }

  // ----- allocate_tchunk

  lemma BinnedChunk(s: KmState, x: int)
    requires Valid(s) && x in s.own
    ensures x != 0 && x in s.chunks && s.chunks[x].size == s.own[x] && x + HEADER in s.mem
    ensures SizeOf(s.mem[x + HEADER]) == s.own[x] && s.own[x] % 8 == 0 && MIN_CHUNK <= s.own[x] < SIZE_LIMIT
    ensures s.own[x] >= MIN_LARGE ==> Large(s.own[x])
  {
    hide *;
    ValidIsLoose(s);
    LooseFacts(s, 0);
    UnfoldBins(s);
    LoadHeader(s.mem, s.own, s.links, s.heapStart, s.heapStart + s.heapSize, x);
    StoredAddress(s.mem, s.own, s.links, s.heapStart, s.heapStart + s.heapSize, x);
    BinnedIs(s.own, s.chunks, x);
    HeaderOfSize(s.own[x]);
  }

  lemma BinnedIs(own: map<int, nat>, cs: ChunkMap, x: int)
    requires OwnFree(own, cs) && x in own
    ensures x in cs && cs[x].size == own[x]
  {
  }

  lemma HeaderOfSize(size: nat)
    requires SizeOK(size)
    ensures SizeOf(size + PINUSE) == size && size % 8 == 0 && MIN_CHUNK <= size < SIZE_LIMIT
    ensures size >= MIN_LARGE ==> Large(size)
  {
  }

  /** allocate_tchunk */
  method AllocateTchunk(s: KmState, chunk: int, n: nat) returns (r: int)
    requires Valid(s) && MIN_CHUNK <= n && n % 8 == 0
    requires chunk != 0 ==> chunk in s.own && s.own[chunk] >= MIN_LARGE && s.own[chunk] >= n
    modifies s`mem, s`chunks, s`links, s`own, s`ring, s`shape, s`sbin, s`sbinmap, s`tbin, s`tbinmap, s`dv, s`dvSize
    ensures Valid(s) && (r == 0 <==> chunk == 0)
    ensures if r == 0 then s.dv == old(s.dv) && s.dvSize == old(s.dvSize)
            else r == chunk + PAYLOAD
                 && CutFrom(old(s.own), old(s.dv), old(s.dvSize), n, chunk, SizeAt(s.chunks, chunk), s.dv, s.dvSize)
    ensures Answer(old(s.mem), old(s.chunks), s.mem, s.chunks, r, n)
  {
    hide *;
    ghost var m0, own := s.mem, s.own;
    if chunk == 0 {
      LiveSame(s.mem, s.chunks);
      AnswerNull(s.mem, s.chunks, s.mem, n);
      return 0;
    }
    BinnedChunk(s, chunk);
    ValidIsLoose(s);
    UnfoldLoose(s, 0);
    LooseFacts(s, 0);
    UnfoldCore(s);
    UnbinLarge(s, chunk);
    AfterUnbin(s, m0, own, chunk);
    LooseFacts(s, chunk);
    UnfoldCore(s);
    HeaderSize(s.mem, HeapOf(s), chunk);
    ghost var m1 := s.mem;
    if SizeOf(s.mem[chunk + HEADER]) - n > MIN_CHUNK {
      CutPart(own, s.dv, s.dvSize, n, chunk);
      GivePart(s, chunk, n);
    } else {
      CutWhole(own, s.dv, s.dvSize, n, chunk);
      GiveWhole(s, chunk, n);
    }
    AnswerBlock(m0, m1, old(s.chunks), s.mem, s.chunks, chunk, n);
    r := chunk + PAYLOAD;
  }
}
