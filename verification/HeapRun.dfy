/** Runs of the allocator: what its clients see, and what a walk over all headers (check_heap_integrity of
    kmalloc's test suite) finds. */
module HeapRun {
  import opened Bits
  import opened BinIndex
  import opened Trie
  import opened FreeLists
  import opened HeapState
  import opened Bins
  import opened Chunks
  import opened HeapLayout
  import opened HeapOps
  import opened Free
  import opened Malloc
  import opened HeapPages
  import opened PagerOps
  import opened PagerViews
  import opened Realloc
  import opened Top
  import opened Spoiled
  import opened Sequences

  // ----- the heap checker of the test suite

  /** Where the walk over the headers stands: at a chunk, at the top chunk or at the dummy header behind it,
      with the flag and the size of what came before. */
  ghost predicate WalkAt(m: Mem, h: Heap, a: int, prevInUse: bool, prevSize: int) {
    if a in h.chunks then prevInUse == h.chunks[a].pinuse && (!prevInUse ==> W(m, a) == prevSize)
    else if a == h.top then prevInUse
    else a == h.top + h.topSize && !prevInUse && prevSize == h.topSize
  }

  lemma WalkStarts(m: Mem, h: Heap, size: int)
    requires HeapOK(m, h) && h.holeSize == 0
    ensures WalkAt(m, h, h.lo, true, size) && h.lo <= h.top
  {
    FirstBoundary(h);
  }

  /** One chunk of the walk: every test of the checker passes and the walk goes on. */
  lemma WalkChunk(m: Mem, h: Heap, a: int, prevInUse: bool, prevSize: int)
    requires HeapOK(m, h) && h.holeSize == 0 && WalkAt(m, h, a, prevInUse, prevSize) && a in h.chunks
    ensures a + HEADER in m && a in m
    ensures var w := m[a + HEADER];
            && w != 0 && SizeOf(w) >= MIN_CHUNK && SizeOf(w) % 8 == 0
            && a + SizeOf(w) <= h.top && PrevInUse(w) == prevInUse && (!prevInUse ==> m[a] == prevSize && InUse(w))
            && WalkAt(m, h, a + SizeOf(w), InUse(w), SizeOf(w))
  {
    HeaderSize(m, h, a);
    WrittenChunk(m, h, a);
    ChunkFacts(h, a);
    NextOf(h, a);
    assert Mapped(m, h.lo, h.hi);
    hide Tiled, Written, Joined, ChunkOK;
    var e := a + h.chunks[a].size;
    if e in h.chunks && !h.chunks[a].used {
      PrevChunk(m, h, e);
      ChunkFacts(h, e - W(m, e));
      ApartOrSame(h, a, e - W(m, e));
    }
    JoinedAtTop(h, a);
    AllBelowTop(h);
  }

  lemma JoinedAtTop(h: Heap, a: int)
    requires Tiled(h) && a in h.chunks
    ensures a + h.chunks[a].size == h.top ==> h.chunks[a].used
    ensures !h.chunks[a].used ==> h.chunks[a].pinuse
  {
    ChunkFacts(h, a);
    hide Tiled;
  }

  /** Two chunks that end at the same place are the same. */
  lemma ApartOrSame(h: Heap, a: int, b: int)
    requires Tiled(h) && a in h.chunks && b in h.chunks && a + h.chunks[a].size == b + h.chunks[b].size
    ensures a == b
  {
    if a != b {
      ApartChunks(h, a, b);
    }
  }

  /** The walk at the top chunk, and at the dummy header. */
  lemma WalkTop(m: Mem, h: Heap, a: int, prevInUse: bool, prevSize: int)
    requires HeapOK(m, h) && h.holeSize == 0 && WalkAt(m, h, a, prevInUse, prevSize) && a !in h.chunks
    ensures a + HEADER in m && a in m && (a == h.top || a == h.top + h.topSize)
    ensures m[a + HEADER] == 0 <==> a == h.top + h.topSize
    ensures a == h.top + h.topSize ==> prevInUse || m[a] == prevSize
    ensures a != h.top + h.topSize ==>
              && prevInUse && PrevInUse(m[a + HEADER]) && SizeOf(m[a + HEADER]) == h.topSize && h.topSize % 8 == 0
              && WalkAt(m, h, a + h.topSize, InUse(m[a + HEADER]), h.topSize)
  {
    hide HeapOK, SizeOf, InUse, PrevInUse;
    WalkPlace(m, h, a, prevInUse, prevSize);
    TopFacts(m, h);
    if h.topSize > 0 {
      TopWord(m, h);
      TopFlags(h.topSize);
    }
  }

  lemma TopFlags(size: nat)
    requires size % 8 == 0
    ensures SizeOf(size + PINUSE) == size && PrevInUse(size + PINUSE) && !InUse(size + PINUSE) && size + PINUSE != 0
  {
    hide SizeOf, InUse, PrevInUse, OrCinuse, OrPinuse, AndNotPinuse;
    Flags(Chunk(size, false, true));
  }

  lemma TopWord(m: Mem, h: Heap)
    requires HeapOK(m, h) && h.topSize > 0
    ensures h.top in m && h.top + HEADER in m && m[h.top + HEADER] == h.topSize + PINUSE
    ensures h.top + h.topSize in m && m[h.top + h.topSize] == h.topSize
  {
    BoundsOf(h);
    assert Mapped(m, h.lo, h.hi) && TopAt(m, h);
    hide Tiled, Written;
  }

  lemma WalkPlace(m: Mem, h: Heap, a: int, prevInUse: bool, prevSize: int)
    requires HeapOK(m, h) && WalkAt(m, h, a, prevInUse, prevSize) && a !in h.chunks
    ensures a == h.top || a == h.top + h.topSize
  {
    hide HeapOK;
  }

  /** check_heap_integrity: walks over all headers and reports the first fault.  On a valid heap it finds fault
      exactly with the two things the allocator lets happen: a top chunk of 8 bytes, which is less than a
      chunk, and the 8 bytes that drop out behind a block that used up the top chunk. */
  method CheckHeapIntegrity(s: KmState) returns (ok: bool)
    requires Valid(s)
    ensures ok <==> s.topSize != 8 && s.top + s.topSize + 8 == s.heapStart + s.heapSize
  {
    hide *;
    ValidIsLoose(s);
    UnfoldLoose(s, 0);
    UnfoldCore(s);
    ghost var h := HeapOf(s);
    var chunk := s.heapStart;
    var prevInUse, prevSize := true, 0;
    WalkStarts(s.mem, h, prevSize);
    WalkEnd(s.mem, h, chunk, prevInUse, prevSize);
    while s.mem[chunk + HEADER] != 0
      invariant WalkAt(s.mem, h, chunk, prevInUse, prevSize) && chunk in s.mem && chunk + HEADER in s.mem
      invariant s.heapStart <= chunk <= s.top + s.topSize && (s.topSize == 8 ==> chunk <= s.top)
      decreases s.top + s.topSize - chunk
    {
      WalkEnd(s.mem, h, chunk, prevInUse, prevSize);
      StepFacts(s.mem, h, chunk, prevInUse, prevSize);
      var header := s.mem[chunk + HEADER];
      var size := SizeOf(header);
      if size > s.heapSize || chunk + size > s.heapStart + s.heapSize || size < MIN_CHUNK || size % 8 != 0 {
        return false;
      }
      if prevInUse {
        if !PrevInUse(header) {
          return false;
        }
      } else if PrevInUse(header) || s.mem[chunk] != prevSize || !InUse(header) {
        return false;
      }
      prevSize := size;
      prevInUse := InUse(header);
      chunk := chunk + size;
      WalkEnd(s.mem, h, chunk, prevInUse, prevSize);
    }
    WalkEnd(s.mem, h, chunk, prevInUse, prevSize);
    if !prevInUse && s.mem[chunk] != prevSize {
      return false;
    }
    ok := chunk + 8 == s.heapStart + s.heapSize;
  }

  /** The walk stays in the heap; it ends where the top chunk ends. */
  lemma WalkEnd(m: Mem, h: Heap, a: int, prevInUse: bool, prevSize: int)
    requires HeapOK(m, h) && h.holeSize == 0 && WalkAt(m, h, a, prevInUse, prevSize)
    ensures a in m && a + HEADER in m && h.lo <= a <= h.top + h.topSize && h.top + h.topSize + 8 <= h.hi
    ensures m[a + HEADER] == 0 <==> a == h.top + h.topSize
    ensures a == h.top + h.topSize ==> (prevInUse || m[a] == prevSize)
  {
    BoundsOf(h);
    if a in h.chunks {
      WalkChunk(m, h, a, prevInUse, prevSize);
      ChunkFacts(h, a);
      AllBelowTop(h);
    } else {
      WalkTop(m, h, a, prevInUse, prevSize);
    }
    hide Tiled, Written;
  }

  lemma StepFacts(m: Mem, h: Heap, a: int, prevInUse: bool, prevSize: int)
    requires HeapOK(m, h) && h.holeSize == 0 && WalkAt(m, h, a, prevInUse, prevSize) && a + HEADER in m && a in m
    requires m[a + HEADER] != 0
    ensures var w := m[a + HEADER];
            && 0 < SizeOf(w) <= h.hi - h.lo && a + SizeOf(w) <= h.hi && SizeOf(w) % 8 == 0
            && (if prevInUse then PrevInUse(w) else !PrevInUse(w) && m[a] == prevSize && InUse(w))
            && WalkAt(m, h, a + SizeOf(w), InUse(w), SizeOf(w))
            && (SizeOf(w) < MIN_CHUNK <==> a == h.top && h.topSize == 8) && (a + SizeOf(w) <= h.top || a == h.top)
  {
    BoundsOf(h);
    if a in h.chunks {
      WalkChunk(m, h, a, prevInUse, prevSize);
      ChunkFacts(h, a);
      AllBelowTop(h);
    } else {
      WalkTop(m, h, a, prevInUse, prevSize);
    }
    hide Tiled, Written;
  }

  // ----- what a client sees

  /** Payload and capacity of each block in use. */
  ghost function Capacity(s: KmState, p: int): int
    requires p - PAYLOAD in Live(s.chunks)
    reads s`chunks
  {
    Live(s.chunks)[p - PAYLOAD] - HEADER
  }

  /** The payloads of different blocks do not overlap and lie in the heap. */
  lemma BlocksApart(s: KmState, p: int, q: int)
    requires Valid(s) && p - PAYLOAD in Live(s.chunks) && q - PAYLOAD in Live(s.chunks) && p != q
    ensures p + Capacity(s, p) <= q || q + Capacity(s, q) <= p
    ensures s.heapStart < p && p + Capacity(s, p) <= s.heapStart + s.heapSize && Capacity(s, p) >= 12
    ensures p % 8 == 0
  {
    hide Valid, Loose, Tiled, HeapOK;
    ValidHeap(s);
    ApartChunks(HeapOf(s), p - PAYLOAD, q - PAYLOAD);
    ChunkFacts(HeapOf(s), p - PAYLOAD);
  }

  /** Every byte of a block is on a page that the pager has mapped for the heap. */
  lemma BlockMapped(s: KmState, p: int, w: int)
    requires Valid(s) && p - PAYLOAD in Live(s.chunks) && p <= w < p + Capacity(s, p)
    ensures w / 4096 in s.pager.entries && w / 4096 !in s.pager.image
  {
    hide *;
    ValidHeap(s);
    ValidIsLoose(s);
    UnfoldLoose(s, 0);
    AgreeIs(s);
    s.pager.HeapIs();
    BlockInHeap(s, HeapOf(s), p);
    PageIn(s.pager.heapAddr, w, s.pager.heapAddr + s.pager.heapSize);
  }

  lemma BlockInHeap(s: KmState, h: Heap, p: int)
    requires Tiled(h) && h == HeapOf(s) && p - PAYLOAD in Live(s.chunks)
    ensures s.heapStart <= p && p + Capacity(s, p) <= s.heapStart + s.heapSize
  {
    ChunkFacts(h, p - PAYLOAD);
    hide Tiled;
  }

  lemma PageIn(start: int, w: int, end: int)
    requires 0 <= start <= w < end && start % 4096 == 0
    ensures w / 4096 in Pages(start / 4096 - 1, (end - 1) / 4096)
  {
  }

  /** A client's knowledge: the pointers it holds are exactly the blocks in use, and every word it has stored in
      one of them is still there. */
  ghost predicate Client(s: KmState, blocks: set<int>, words: map<(int, int), int>)
    reads s, s.pager
  {
    && Valid(s)
    && (forall p :: p in blocks <==> p - PAYLOAD in Live(s.chunks))
    && (forall p, i :: (p, i) in words ==>
          && p in blocks && i % 4 == 0 && 0 <= i <= Capacity(s, p) - 4 && W(s.mem, p + i) == words[(p, i)])
  }

  datatype Request =
    | Allocate(size: nat)
    | Release(ptr: int)
    | Resize(ptr: int, size: nat)
    | Store(ptr: int, offset: int, value: int)

  /** Stored words of the other blocks survive; those of block a may be gone. */
  lemma WordsSurvive(m: Mem, cs: ChunkMap, m': Mem, cs': ChunkMap, a: int, b: int, i: int)
    requires LiveKept(m, cs, m', cs', a) && b in Live(cs) && b != a && 0 <= i <= Live(cs)[b] - HEADER - 4
    ensures b in Live(cs') && Live(cs')[b] == Live(cs)[b] && W(m', b + PAYLOAD + i) == W(m, b + PAYLOAD + i)
  {
    assert BlockKept(m, m', b, cs[b].size);
  }

  lemma ClientFacts(s: KmState, blocks: set<int>, words: map<(int, int), int>)
    requires Client(s, blocks, words)
    ensures Valid(s) && s.heapStart != 0 && 0 !in s.chunks
    ensures forall p :: p in blocks <==> p - PAYLOAD in Live(s.chunks)
    ensures forall p :: p in blocks ==> p != 0 && Pointer(s, p)
  {
    NoChunkAtZero(HeapOf(s));
    BoundsOf(HeapOf(s));
    forall p | p in blocks
      ensures p != 0
    {
      NonZero(s, p - PAYLOAD);
    }
    hide Valid;
  }

  ghost predicate Knows(m: Mem, cs: ChunkMap, blocks: set<int>, words: map<(int, int), int>) {
    && (forall p :: p in blocks <==> p - PAYLOAD in Live(cs))
    && (forall p, i :: (p, i) in words ==>
          && p in blocks && i % 4 == 0 && 0 <= i <= Live(cs)[p - PAYLOAD] - HEADER - 4 && W(m, p + i) == words[(p, i)])
  }

  lemma ClientIs(s: KmState, blocks: set<int>, words: map<(int, int), int>)
    ensures Client(s, blocks, words) <==> Valid(s) && Knows(s.mem, s.chunks, blocks, words)
  {
    hide Valid;
  }

  lemma AfterAllocate(m: Mem, cs: ChunkMap, m': Mem, cs': ChunkMap, r: int, n: nat, blocks: set<int>, words: map<(int, int), int>)
    requires Knows(m, cs, blocks, words) && Answer(m, cs, m', cs', r, n) && 0 !in cs
    ensures Knows(m', cs', if r == 0 then blocks else blocks + {r}, words)
  {
    forall p, i | (p, i) in words
      ensures p - PAYLOAD in Live(cs') && Live(cs')[p - PAYLOAD] == Live(cs)[p - PAYLOAD] && W(m', p + i) == words[(p, i)]
    {
      WordsSurvive(m, cs, m', cs', 0, p - PAYLOAD, i);
    }
    hide LiveKept;
  }

  function Others(words: map<(int, int), int>, p: int): map<(int, int), int> {
    map k | k in words && k.0 != p :: words[k]
  }

  lemma AfterRelease(m: Mem, cs: ChunkMap, m': Mem, cs': ChunkMap, p: int, blocks: set<int>, words: map<(int, int), int>)
    requires Knows(m, cs, blocks, words) && Live(cs') == Live(cs) - {p - PAYLOAD} && LiveKept(m, cs, m', cs', p - PAYLOAD)
    ensures Knows(m', cs', blocks - {p}, Others(words, p))
  {
    forall q, i | (q, i) in words && q != p
      ensures q - PAYLOAD in Live(cs') && Live(cs')[q - PAYLOAD] == Live(cs)[q - PAYLOAD] && W(m', q + i) == words[(q, i)]
    {
      WordsSurvive(m, cs, m', cs', p - PAYLOAD, q - PAYLOAD, i);
    }
    hide LiveKept;
  }

  /** The words of block p that fit below the capacity, now in block r. */
  function MovedWords(words: map<(int, int), int>, p: int, r: int, capacity: int): map<(int, int), int> {
    map k | k in words && k.0 == p && k.1 <= capacity - 4 :: (r, k.1) := words[k]
  }

  /** Word i of block q is known to be v. */
  ghost predicate WordAt(m: Mem, cs: ChunkMap, q: int, i: int, v: int) {
    q - PAYLOAD in Live(cs) && i % 4 == 0 && 0 <= i <= Live(cs)[q - PAYLOAD] - HEADER - 4 && W(m, q + i) == v
  }

  lemma KnowsBy(m: Mem, cs: ChunkMap, blocks: set<int>, words: map<(int, int), int>)
    ensures Knows(m, cs, blocks, words) <==>
              && (forall p :: p in blocks <==> p - PAYLOAD in Live(cs))
              && (forall p, i :: (p, i) in words ==> WordAt(m, cs, p, i, words[(p, i)]))
  {
    hide Live, W;
  }

  lemma OtherWord(m: Mem, cs: ChunkMap, m': Mem, cs': ChunkMap, a: int, q: int, i: int, v: int)
    requires LiveKept(m, cs, m', cs', a) && WordAt(m, cs, q, i, v) && q - PAYLOAD != a
    ensures WordAt(m', cs', q, i, v)
  {
    WordsSurvive(m, cs, m', cs', a, q - PAYLOAD, i);
  }

  lemma MovedWord(m: Mem, cs: ChunkMap, m': Mem, cs': ChunkMap, p: int, r: int, n: nat, i: int, v: int)
    requires p - PAYLOAD in cs && r - PAYLOAD in cs' && Reallocated(m, cs, m', cs', p - PAYLOAD, r - PAYLOAD, n)
    requires WordAt(m, cs, p, i, v) && i <= cs'[r - PAYLOAD].size - HEADER - 4
    ensures WordAt(m', cs', r, i, v)
  {
    var a, b := p - PAYLOAD, r - PAYLOAD;
    assert W(m', b + PAYLOAD + i) == W(m, a + PAYLOAD + i);
    assert b in Live(cs');
  }

  lemma ReallocatedLive(m: Mem, cs: ChunkMap, m': Mem, cs': ChunkMap, a: int, b: int, n: nat)
    requires a in cs && Reallocated(m, cs, m', cs', a, b, n)
    ensures b in cs' && Live(cs').Keys == Live(cs).Keys - {a} + {b} && LiveKept(m, cs, m', cs', a)
    ensures b in Live(cs') && n <= cs'[b].size == Live(cs')[b] && (b == a || b !in Live(cs))
  {
  }

  lemma MovedAre(words: map<(int, int), int>, p: int, r: int, capacity: int, q: int, i: int)
    ensures var moved, others := MovedWords(words, p, r, capacity), Others(words, p);
            && ((q, i) in moved ==> q == r && (p, i) in words && i <= capacity - 4 && moved[(q, i)] == words[(p, i)])
            && ((q, i) in others ==> q != p && (q, i) in words && others[(q, i)] == words[(q, i)])
  {
  }

  lemma AfterResize(m: Mem, cs: ChunkMap, m': Mem, cs': ChunkMap, p: int, r: int, n: nat,
                    blocks: set<int>, words: map<(int, int), int>)
    requires Knows(m, cs, blocks, words) && p in blocks && p - PAYLOAD in cs && r - PAYLOAD in cs'
    requires Reallocated(m, cs, m', cs', p - PAYLOAD, r - PAYLOAD, n)
    ensures Knows(m', cs', blocks - {p} + {r}, Others(words, p) + MovedWords(words, p, r, cs'[r - PAYLOAD].size - HEADER))
  {
    hide *;
    var moved := MovedWords(words, p, r, cs'[r - PAYLOAD].size - HEADER);
    var words' := Others(words, p) + moved;
    KnowsBy(m, cs, blocks, words);
    ReallocatedLive(m, cs, m', cs', p - PAYLOAD, r - PAYLOAD, n);
    forall q, i | (q, i) in words'
      ensures WordAt(m', cs', q, i, words'[(q, i)])
    {
      MovedAre(words, p, r, cs'[r - PAYLOAD].size - HEADER, q, i);
      if (q, i) in moved {
        MovedWord(m, cs, m', cs', p, r, n, i, words[(p, i)]);
      } else {
        OtherWord(m, cs, m', cs', p - PAYLOAD, q, i, words[(q, i)]);
      }
    }
    KnowsBy(m', cs', blocks - {p} + {r}, words');
  }

  // ----- runs

  /** The test a caller would have to make before asking for a larger block: growing chunk to n bytes will not write a
      header on a field of a binned chunk, or only on one that is not used. */
  predicate ExpandSafe(s: KmState, chunk: int, n: nat)
    reads s`mem, s`top, s`dv
  {
    var size := SizeOf(W(s.mem, chunk + HEADER));
    var next := chunk + size;
    var nextWord := W(s.mem, next + HEADER);
    || n <= size || next == s.top || next == s.dv || InUse(nextWord)
    || (var rest := SizeOf(nextWord) - (n - size);
        rest <= MIN_CHUNK || !HeaderOnFields(rest + (n - size), n - size)
        || (n - size == 8 && W(s.mem, next + PAYLOAD) == next))
  }

  /** The test is exact. */
  lemma ExpandSafeExact(s: KmState, a: int, n: nat)
    requires Valid(s) && a in s.chunks && s.chunks[a].size < n
    ensures ExpandSafe(s, a, n) <==> !HeaderStrikes(s.own, s.links, s.chunks, a, n)
  {
    hide *;
    var e, d := a + s.chunks[a].size, n - s.chunks[a].size;
    HitsOnlyFree(s, a, n);
    BehindWord(s, a);
    WordIs(s.mem, e + HEADER);
    WordIs(s.mem, a + HEADER);
    SafeIs(s, a, n);
    HitsBinned(s, a, n);
    if e in s.own {
      NextWord(s, e);
    }
    StruckIs(s, a, n);
  }

  lemma SafeIs(s: KmState, a: int, n: nat)
    ensures var size := SizeOf(W(s.mem, a + HEADER));
            var next := a + size;
            var free := SizeOf(W(s.mem, next + HEADER));
            ExpandSafe(s, a, n) <==>
              || n <= size || next == s.top || next == s.dv || InUse(W(s.mem, next + HEADER)) || free - (n - size) <= MIN_CHUNK
              || !HeaderOnFields(free, n - size) || (n - size == 8 && W(s.mem, next + PAYLOAD) == next)
    ensures MIN_CHUNK > 0
  {
    hide SizeOf, InUse, HeaderOnFields;
    var size := SizeOf(W(s.mem, a + HEADER));
    var free := SizeOf(W(s.mem, a + size + HEADER));
    assert free - (n - size) + (n - size) == free;
  }

  lemma HitsBinned(s: KmState, a: int, n: nat)
    requires a in s.chunks && s.chunks[a].size < n
    ensures HeaderHits(s.own, s.chunks, a, n) ==> a + s.chunks[a].size in s.own
  {
  }

  lemma StruckIs(s: KmState, a: int, n: nat)
    requires a in s.chunks && s.chunks[a].size < n
    ensures HeaderStrikes(s.own, s.links, s.chunks, a, n) <==>
              && HeaderHits(s.own, s.chunks, a, n)
              && !(n - s.chunks[a].size == 8 && Get(s.links, a + s.chunks[a].size, Next) == a + s.chunks[a].size)
  {
  }

  lemma NextWord(s: KmState, x: int)
    requires Valid(s) && x in s.own
    ensures W(s.mem, x + PAYLOAD) == Get(s.links, x, Next)
  {
    ValidBins(s);
    UnfoldBins(s);
    LoadLink(s.mem, s.own, s.links, s.heapStart, s.heapStart + s.heapSize, x, Next);
    hide Valid, KmState.BinsOK, Stored;
  }

  /** The client stores a word in one of its blocks. */
  method StoreWord(s: KmState, p: int, i: int, v: int)
    requires Valid(s) && p - PAYLOAD in Live(s.chunks) && i % 4 == 0 && 0 <= i <= Capacity(s, p) - 4
    modifies s`mem
    ensures Valid(s) && LiveKept(old(s.mem), s.chunks, s.mem, s.chunks, p - PAYLOAD)
    ensures s.mem == old(s.mem)[p + i := v]
  {
    hide *;
    ghost var m := s.mem;
    ValidIsLoose(s);
    UnfoldLoose(s, 0);
    UnfoldCore(s);
    UnfoldHeads(s);
    StoresInBlock(s, p, i, v);
    s.mem := s.mem[p + i := v];
    AfterCopy(s, m, p - PAYLOAD);
  }

  lemma StoresInBlock(s: KmState, p: int, i: int, v: int)
    requires Valid(s) && p - PAYLOAD in Live(s.chunks) && 0 <= i <= Capacity(s, p) - 4
    ensures p - PAYLOAD in s.chunks && s.chunks[p - PAYLOAD].used
    ensures BlockWritten(s.mem, s.mem[p + i := v], p - PAYLOAD, s.chunks[p - PAYLOAD].size)
  {
    hide Valid, Loose, Tiled, Written, Joined;
    ValidHeap(s);
    ChunkFacts(HeapOf(s), p - PAYLOAD);
    MappedHeap(s.mem, HeapOf(s));
  }

  lemma MappedHeap(m: Mem, h: Heap)
    requires HeapOK(m, h)
    ensures Mapped(m, h.lo, h.hi)
  {
  }

  lemma AfterStore(m: Mem, cs: ChunkMap, p: int, i: int, v: int, blocks: set<int>, words: map<(int, int), int>)
    requires Knows(m, cs, blocks, words) && p in blocks && i % 4 == 0 && 0 <= i <= Live(cs)[p - PAYLOAD] - HEADER - 4
    requires LiveKept(m, cs, m[p + i := v], cs, p - PAYLOAD)
    ensures Knows(m[p + i := v], cs, blocks, words[(p, i) := v])
  {
    var m', words' := m[p + i := v], words[(p, i) := v];
    KnowsBy(m, cs, blocks, words);
    hide Knows, LiveKept, Live;
    forall q, j | (q, j) in words'
      ensures WordAt(m', cs, q, j, words'[(q, j)])
    {
      if q != p {
        OtherWord(m, cs, m', cs, p - PAYLOAD, q, j, words[(q, j)]);
      }
    }
    KnowsBy(m', cs, blocks, words');
  }

  lemma BlockHeader(s: KmState, p: int)
    requires Valid(s) && p - PAYLOAD in Live(s.chunks)
    ensures p - PAYLOAD in s.chunks && s.chunks[p - PAYLOAD].used
    ensures p - PAYLOAD + HEADER in s.mem && SizeOf(s.mem[p - PAYLOAD + HEADER]) - HEADER == Capacity(s, p)
    ensures Capacity(s, p) == Live(s.chunks)[p - PAYLOAD] - HEADER == s.chunks[p - PAYLOAD].size - HEADER
  {
    ChunkWords(s, 0, p - PAYLOAD);
    hide Valid, Loose, InUse, PrevInUse, SizeOf;
  }

  lemma NullPointer(s: KmState)
    ensures Pointer(s, 0)
  {
  }

  lemma NullIsNoBlock(s: KmState, blocks: set<int>, words: map<(int, int), int>)
    requires Client(s, blocks, words)
    ensures 0 - PAYLOAD !in s.chunks && 0 - PAYLOAD !in Live(s.chunks) && 0 !in blocks
    ensures blocks - {0} == blocks && Others(words, 0) == words
  {
    hide Valid, Loose, Tiled, HeapOK;
    ValidHeap(s);
    if 0 - PAYLOAD in s.chunks {
      ChunkFacts(HeapOf(s), 0 - PAYLOAD);
    }
    assert forall p, i :: (p, i) in words ==> p in blocks;
    hide Valid, Capacity;
  }

  // ----- what a request does

  /** All there is to see of the allocator and the pager: the words, the chunks, the free lists and the bins, the designated
      victim, and the heap's end. */
  datatype Look = Look(mem: Mem, chunks: ChunkMap, own: map<int, nat>, links: Links, ring: Rings, shape: Shape,
                       sbin: seq<int>, tbin: seq<int>, sbinmap: nat, tbinmap: nat, dv: int, dvSize: nat, heapStart: int, end: End)

  ghost function LookOf(s: KmState): Look
    reads s, s.pager
  {
    Look(s.mem, s.chunks, s.own, s.links, s.ring, s.shape, s.sbin, s.tbin, s.sbinmap, s.tbinmap, s.dv, s.dvSize, s.heapStart,
         EndOf(s))
  }

  /** What is seen is a well-formed heap: all that Valid says of a state. */
  ghost predicate WellFormed(l: Look) {
    && Stored(l.mem, l.own, l.links, l.heapStart, l.heapStart + l.end.heapSize)
    && ListsOK(l.own, l.links, l.ring, l.shape) && HeadsOK(l.ring, l.shape, l.sbin, l.tbin, l.sbinmap, l.tbinmap)
    && HeapOK(l.mem, Heap(l.chunks, l.end.top, l.end.topSize, l.heapStart, l.heapStart + l.end.heapSize, 0, 0))
    && OwnFree(l.own, l.chunks) && BinnedBut(l.own, l.chunks, l.dv, 0) && VictimOK(l.chunks, l.dv, l.dvSize)
    && SizesOK(l.end.heapSize, l.end.pager.heapSize, l.end.initial)
    && l.end.pager.Sound() && l.end.pager.heapAddr == l.heapStart && |l.end.pager.Account()| <= MEMORY_FRAMES
  }

  /** A point of a run: what can be seen, the blocks the client holds, and the words it has stored in them. */
  datatype Moment = Moment(look: Look, blocks: set<int>, words: map<(int, int), int>)

  /** A client uses only pointers it holds, or NULL, and stores inside its blocks; sizes are words. */
  predicate Admissible(m: Mem, q: Request, blocks: set<int>) {
    match q
    case Allocate(size) => size < SIZE_T_LIMIT
    case Release(p) => p == 0 || p in blocks
    case Resize(p, size) => size < SIZE_T_LIMIT && (p == 0 || p in blocks)
    case Store(p, i, _) => p in blocks && i % 4 == 0 && 0 <= i <= SizeOf(W(m, p - PAYLOAD + HEADER)) - HEADER - 4
  }

  /** The requests on which the allocator goes wrong. */
  ghost predicate GoesWrong(l: Look, q: Request) {
    match q
    case Allocate(size) => !RequestOverflow(size) && BeyondBins(l.own, RequestToSize(size))
    case Resize(p, size) => EndingIn(l.own, l.links, l.chunks, l.end.top, l.end.topSize, p, size) != Done
    case _ => false
  }

  /** No block of n bytes is free and the pager can not add the pages. */
  ghost predicate Exhausted(l: Look, n: nat) {
    NoneFits(l.own, l.dvSize, l.end.topSize, n) && !TopExtends(l.end.topSize, l.end.pager, n)
  }

  /** The requests that are answered by NULL. */
  ghost predicate AnswersNull(l: Look, q: Request) {
    match q
    case Allocate(size) => RequestOverflow(size) || Exhausted(l, RequestToSize(size))
    case Resize(p, size) =>
      if p == 0 then RequestOverflow(size) || Exhausted(l, RequestToSize(size))
      else if size == 0 then true
      else if RequestToSize(size) == 0 then false
      else Outgrow(l.chunks, l.end.top, l.end.topSize, p - PAYLOAD, RequestToSize(size)) && Exhausted(l, RequestToSize(size))
    case _ => true
  }

  /** A block is given back, also by a new size that rounds to 0. */
  predicate Ends(q: Request) {
    match q
    case Release(_) => true
    case Resize(p, size) => p != 0 && (size == 0 || RequestToSize(size) == 0)
    case _ => false
  }

  /** The blocks a client holds after a request that was answered by r (0 is NULL). */
  function BlocksAfter(blocks: set<int>, q: Request, r: int): set<int> {
    if q.Store? then blocks
    else if Ends(q) then blocks - {q.ptr}
    else if r == 0 then blocks
    else if q.Resize? then blocks - {q.ptr} + {r}
    else blocks + {r}
  }

  /** The stored words a client can rely on then: a resized block keeps those that fit. */
  function WordsAfter(words: map<(int, int), int>, q: Request, r: int, capacity: int): map<(int, int), int> {
    if q.Store? then words[(q.ptr, q.offset) := q.value]
    else if Ends(q) then Others(words, q.ptr)
    else if q.Resize? && q.ptr != 0 && r != 0 then Others(words, q.ptr) + MovedWords(words, q.ptr, r, capacity)
    else words
  }

  /** A new block is none of those the client has, and as large as was asked for, unless that overflows; a resized one is
      the old one or a new one. */
  ghost predicate Granting(l: Look, blocks: set<int>, q: Request, r: int, capacity: int) {
    (q.Allocate? || q.Resize?) && r != 0 && !Ends(q) ==>
      && r - PAYLOAD in Live(l.chunks) && capacity == Live(l.chunks)[r - PAYLOAD] - HEADER
      && (q.size <= capacity <==> !RequestOverflow(q.size))
      && (r !in blocks || (q.Resize? && r == q.ptr))
  }

  /** The block at p is gone, all others are as they were. */
  ghost predicate Released(l: Look, p: int, l': Look) {
    && Live(l'.chunks) == Live(l.chunks) - {p - PAYLOAD}
    && LiveKept(l.mem, l.chunks, l'.mem, l'.chunks, p - PAYLOAD)
  }

  ghost function StockIn(l: Look): Stock {
    Stock(l.own, l.ring, l.shape, l.dv, l.dvSize)
  }

  /** Which free chunk the block at r is made of and how large it is, where freed bytes go, and what the designated victim is then. */
  ghost predicate Places(l: Look, q: Request, r: int, l': Look) {
    match q
    case Allocate(size) =>
      Allotted(StockIn(l), l.end.top, RequestToSize(size), r, SizeAt(l'.chunks, r - PAYLOAD), l'.dv, l'.dvSize)
    case Release(p) => p != 0 ==> Freed(l.chunks, l.end.top, l.dv, l.dvSize, p - PAYLOAD, l'.own, l'.dv, l'.dvSize)
    case Resize(p, size) =>
      if p == 0 then Allotted(StockIn(l), l.end.top, RequestToSize(size), r, SizeAt(l'.chunks, r - PAYLOAD), l'.dv, l'.dvSize)
      else if Ends(q) then Freed(l.chunks, l.end.top, l.dv, l.dvSize, p - PAYLOAD, l'.own, l'.dv, l'.dvSize)
      else ResizedTo(StockIn(l), l.chunks, l.end, p - PAYLOAD, RequestToSize(size), r, SizeAt(l'.chunks, r - PAYLOAD),
                   l'.own, l'.dv, l'.dvSize)
    case Store(_, _, _) => true
  }

  /** What a request that was answered by r changes: no block but the one it is about, the free chunks and the designated victim as
      the allocator chooses them, and the heap's end with the pager's pages and frames exactly as the allocator moves it.  A word
      that is stored changes nothing else, and releasing NULL changes nothing. */
  ghost predicate Changes(l: Look, q: Request, r: int, l': Look) {
    && l'.heapStart == l.heapStart && l'.end.pager.Account() == l.end.pager.Account()
    && Places(l, q, r, l')
    && match q
       case Allocate(size) =>
         && Answer(l.mem, l.chunks, l'.mem, l'.chunks, r, RequestToSize(size))
         && l'.end == if RequestOverflow(size) then l.end else AllocatedEnd(l.own, l.dvSize, l.end, RequestToSize(size), true)
       case Release(p) =>
         if p == 0 then l' == l
         else Released(l, p, l') && l'.end == FreedEnd(l.chunks, l.heapStart, l.end, p - PAYLOAD, l'.end.top)
       case Resize(p, size) =>
         && (if p == 0 then Answer(l.mem, l.chunks, l'.mem, l'.chunks, r, RequestToSize(size))
             else if Ends(q) then Released(l, p, l')
             else if r == 0 then Live(l'.chunks) == Live(l.chunks) && LiveKept(l.mem, l.chunks, l'.mem, l'.chunks, 0)
             else Reallocated(l.mem, l.chunks, l'.mem, l'.chunks, p - PAYLOAD, r - PAYLOAD, RequestToSize(size)))
         && l'.end == ReallocEnd(l.heapStart, l.own, l.dvSize, l.chunks, l.end, p, size, r, l'.end.top)
       case Store(p, i, v) => l' == l.(mem := l.mem[p + i := v])
  }

  /** A request of the client is served. */
  ghost predicate Served(m: Moment, q: Request, r: int, capacity: int, m': Moment) {
    && !GoesWrong(m.look, q)
    && (r == 0 <==> AnswersNull(m.look, q))
    && m'.blocks == BlocksAfter(m.blocks, q, r) && m'.words == WordsAfter(m.words, q, r, capacity)
    && Granting(m'.look, m.blocks, q, r, capacity)
    && Changes(m.look, q, r, m'.look)
    && Sound(m')
  }

  /** The heap is well formed, the client holds exactly the blocks in use, and what it has stored is there. */
  ghost predicate Sound(m: Moment) {
    WellFormed(m.look) && Knows(m.look.mem, m.look.chunks, m.blocks, m.words)
  }

  // ----- what the blocks decide

  ghost predicate FreeFits(cs: ChunkMap, n: nat) {
    exists a :: a in cs && !cs[a].used && cs[a].size >= n
  }

  /** The free chunks are the binned ones and the designated victim. */
  lemma FreeRoom(own: map<int, nat>, cs: ChunkMap, dv: int, dvSize: nat, n: nat)
    requires OwnFree(own, cs) && BinnedBut(own, cs, dv, 0) && VictimOK(cs, dv, dvSize) && 0 !in cs && n > 0
    ensures BinFits(own, n) || n <= dvSize <==> FreeFits(cs, n)
  {
    if x :| x in own && own[x] >= n {
      assert x in cs && !cs[x].used;
    }
    if a :| a in cs && !cs[a].used && cs[a].size >= n {
      assert a == dv || a in own;
    }
  }

  lemma SameRoom(h: Heap, g: Heap, n: nat)
    requires SameLayout(h, g)
    ensures FreeFits(h.chunks, n) <==> FreeFits(g.chunks, n)
  {
    if a :| a in h.chunks && !h.chunks[a].used && h.chunks[a].size >= n {
      assert a in g.chunks && SameChunk(h.chunks[a], g.chunks[a]);
    }
    if a :| a in g.chunks && !g.chunks[a].used && g.chunks[a].size >= n {
      assert a in h.chunks && SameChunk(h.chunks[a], g.chunks[a]);
    }
  }

  lemma SameOutgrow(h: Heap, g: Heap, topSize: nat, a: int, n: nat)
    requires SameLayout(h, g)
    ensures Outgrow(h.chunks, h.top, topSize, a, n) <==> Outgrow(g.chunks, g.top, topSize, a, n)
  {
    if a in h.chunks {
      assert a in g.chunks && SameChunk(h.chunks[a], g.chunks[a]);
      var e := a + h.chunks[a].size;
      assert e in h.chunks ==> e in g.chunks && SameChunk(h.chunks[e], g.chunks[e]);
    }
  }

  ghost function HeapSeen(l: Look): Heap {
    Heap(l.chunks, l.end.top, l.end.topSize, l.heapStart, l.heapStart + l.end.heapSize, 0, 0)
  }

  lemma FormedFacts(l: Look)
    requires WellFormed(l)
    ensures HeapSeen(l) == Heap(l.chunks, l.end.top, l.end.topSize, l.heapStart, l.heapStart + l.end.heapSize, 0, 0)
    ensures Tiled(HeapSeen(l)) && 0 !in l.chunks
    ensures OwnFree(l.own, l.chunks) && BinnedBut(l.own, l.chunks, l.dv, 0) && VictimOK(l.chunks, l.dv, l.dvSize)
  {
    NoChunkAtZero(HeapSeen(l));
    hide Tiled, Written, OwnFree, BinnedBut, VictimOK;
  }

  lemma SameBlocksIs(h: Heap, g: Heap)
    requires h.holeSize == 0 && g.holeSize == 0 && h.lo == g.lo && Live(h.chunks) == Live(g.chunks)
    ensures SameBlocks(h, g)
  {
  }

  /** Whether there is room for n bytes in the free chunks, and where the top chunk is, follows from the blocks in use. */
  lemma RoomByBlocks(l: Look, k: Look, n: nat)
    requires WellFormed(l) && WellFormed(k) && l.heapStart == k.heapStart && Live(l.chunks) == Live(k.chunks) && n > 0
    ensures l.end.top == k.end.top && SameLayout(HeapSeen(l), HeapSeen(k))
    ensures BinFits(l.own, n) || n <= l.dvSize <==> BinFits(k.own, n) || n <= k.dvSize
  {
    hide *;
    FormedFacts(l);
    FormedFacts(k);
    SameBlocksIs(HeapSeen(l), HeapSeen(k));
    LayoutByBlocks(HeapSeen(l), HeapSeen(k));
    LayoutTop(HeapSeen(l), HeapSeen(k));
    FreeRoom(l.own, l.chunks, l.dv, l.dvSize, n);
    FreeRoom(k.own, k.chunks, k.dv, k.dvSize, n);
    SameRoom(HeapSeen(l), HeapSeen(k), n);
  }

  lemma LayoutTop(h: Heap, g: Heap)
    requires SameLayout(h, g)
    ensures h.top == g.top
  {
  }

  /** Which requests are answered by NULL, and how the heap's end moves when a block is allocated, is decided by the blocks in
      use, the heap's size, the size of the top chunk and the pager, however the free chunks are binned. */
  lemma DecidedByBlocks(l: Look, k: Look, q: Request)
    requires WellFormed(l) && WellFormed(k) && l.heapStart == k.heapStart && Live(l.chunks) == Live(k.chunks)
    requires l.end == k.end.(top := l.end.top)
    ensures l.end == k.end && (AnswersNull(l, q) <==> AnswersNull(k, q))
    ensures (q.Allocate? || q.Resize?) && !RequestOverflow(q.size) ==>
              AllocatedEnd(l.own, l.dvSize, l.end, RequestToSize(q.size), true) ==
              AllocatedEnd(k.own, k.dvSize, k.end, RequestToSize(q.size), true)
  {
    hide *;
    RoomByBlocks(l, k, 1);
    NullIs(l, q);
    NullIs(k, q);
    if q.Allocate? || q.Resize? {
      var n := RequestToSize(q.size);
      SizeWhole(q.size);
      if n > 0 {
        RoomByBlocks(l, k, n);
        ExhaustedIs(l, n);
        ExhaustedIs(k, n);
        EndChosen(l.own, l.dvSize, l.end, n);
        EndChosen(k.own, k.dvSize, k.end, n);
      }
      if q.Resize? {
        SameOutgrow(HeapSeen(l), HeapSeen(k), l.end.topSize, q.ptr - PAYLOAD, n);
        FormedFacts(l);
        FormedFacts(k);
      }
    }
  }

  lemma SizeWhole(size: nat)
    ensures !RequestOverflow(size) ==> RequestToSize(size) > 0
  {
  }

  lemma EndChosen(own: map<int, nat>, dvSize: nat, e: End, n: nat)
    ensures AllocatedEnd(own, dvSize, e, n, true) ==
              if n >= REQUEST_LIMIT || BinFits(own, n) || n <= dvSize then e else SplitEnd(e, n, true)
  {
    hide SplitEnd, BinFits;
  }

  lemma ExhaustedIs(l: Look, n: nat)
    ensures Exhausted(l, n) <==>
              !(BinFits(l.own, n) || n <= l.dvSize) && l.end.topSize < n && !TopExtends(l.end.topSize, l.end.pager, n)
  {
    hide BinFits, TopExtends;
  }

  lemma NullIs(l: Look, q: Request)
    ensures AnswersNull(l, q) <==>
              match q
              case Allocate(size) => RequestOverflow(size) || Exhausted(l, RequestToSize(size))
              case Resize(p, size) =>
                if p == 0 then RequestOverflow(size) || Exhausted(l, RequestToSize(size))
                else size == 0 || (RequestToSize(size) != 0 && Exhausted(l, RequestToSize(size))
                                   && Outgrow(l.chunks, l.end.top, l.end.topSize, p - PAYLOAD, RequestToSize(size)))
              case _ => true
  {
    hide Exhausted, Outgrow, RequestToSize, RequestOverflow;
  }

  lemma LookIs(s: KmState)
    ensures LookOf(s) == Look(s.mem, s.chunks, s.own, s.links, s.ring, s.shape, s.sbin, s.tbin, s.sbinmap, s.tbinmap, s.dv, s.dvSize,
                              s.heapStart, EndOf(s))
    ensures EndOf(s) == End(s.top, s.topSize, s.heapSize, s.initialHeapSize, s.pager.View())
    ensures s.pager.View().heapAddr == s.pager.heapAddr && s.pager.View().heapSize == s.pager.heapSize
  {
  }

  /** The same conditions on the state. */
  lemma LookFacts(s: KmState, n: nat, ptr: int, req: nat)
    ensures Exhausted(LookOf(s), n) <==> NoRoom(s, n) && !Extensible(s, n)
    ensures Outgrows(s, ptr - PAYLOAD, n) <==> Outgrow(s.chunks, s.top, s.topSize, ptr - PAYLOAD, n)
    ensures s.heapStart != 0 ==> EndingOf(s, ptr, req) == EndingIn(s.own, s.links, s.chunks, s.top, s.topSize, ptr, req)
    ensures EndingIn(s.own, s.links, s.chunks, s.top, s.topSize, 0, req) ==
              if !RequestOverflow(req) && BeyondBins(s.own, RequestToSize(req)) then Shifted else Done
  {
  }

  lemma SoundIs(s: KmState, blocks: set<int>, words: map<(int, int), int>)
    requires Client(s, blocks, words)
    ensures Sound(Moment(LookOf(s), blocks, words))
  {
    hide *;
    ClientIs(s, blocks, words);
    LookIs(s);
    LookFormed(s);
    FoldSound(Moment(LookOf(s), blocks, words));
  }

  lemma FoldSound(m: Moment)
    requires WellFormed(m.look) && Knows(m.look.mem, m.look.chunks, m.blocks, m.words)
    ensures Sound(m)
  {
  }

  /** A valid state is seen to be well formed. */
  lemma LookFormed(s: KmState)
    requires Valid(s)
    ensures WellFormed(LookOf(s)) && EndOf(s).pager.Account() == s.frames
  {
    hide *;
    LookIs(s);
    ValidIsLoose(s);
    UnfoldLoose(s, 0);
    UnfoldCore(s);
    UnfoldHeads(s);
    AgreeIs(s);
    s.pager.SoundView();
    FoldFormed(LookOf(s));
  }

  lemma FoldFormed(l: Look)
    requires Stored(l.mem, l.own, l.links, l.heapStart, l.heapStart + l.end.heapSize)
    requires ListsOK(l.own, l.links, l.ring, l.shape) && HeadsOK(l.ring, l.shape, l.sbin, l.tbin, l.sbinmap, l.tbinmap)
    requires HeapOK(l.mem, Heap(l.chunks, l.end.top, l.end.topSize, l.heapStart, l.heapStart + l.end.heapSize, 0, 0))
    requires OwnFree(l.own, l.chunks) && BinnedBut(l.own, l.chunks, l.dv, 0) && VictimOK(l.chunks, l.dv, l.dvSize)
    requires SizesOK(l.end.heapSize, l.end.pager.heapSize, l.end.initial)
    requires l.end.pager.Sound() && l.end.pager.heapAddr == l.heapStart && |l.end.pager.Account()| <= MEMORY_FRAMES
    ensures WellFormed(l)
  {
  }

  lemma FoldServed(m: Moment, q: Request, r: int, capacity: int, m': Moment)
    requires !GoesWrong(m.look, q) && (r == 0 <==> AnswersNull(m.look, q)) && Granting(m'.look, m.blocks, q, r, capacity)
    requires Changes(m.look, q, r, m'.look)
    requires m'.blocks == BlocksAfter(m.blocks, q, r) && m'.words == WordsAfter(m.words, q, r, capacity) && Sound(m')
    ensures Served(m, q, r, capacity, m')
  {
  }

  lemma AfterFailure(m: Mem, cs: ChunkMap, m': Mem, cs': ChunkMap, blocks: set<int>, words: map<(int, int), int>)
    requires Knows(m, cs, blocks, words) && Live(cs') == Live(cs) && LiveKept(m, cs, m', cs', 0) && 0 !in cs
    ensures Knows(m', cs', blocks, words)
  {
    AfterAllocate(m, cs, m', cs', 0, 0, blocks, words);
  }

  // ----- allocating

  lemma AllocateCases(s: KmState, l: Look, size: nat, blocks: set<int>, words: map<(int, int), int>, r: int, capacity: int)
    requires l == LookOf(s)
    ensures GoesWrong(l, Allocate(size)) <==> !RequestOverflow(size) && BeyondBins(s.own, RequestToSize(size))
    ensures AnswersNull(l, Allocate(size)) <==>
              RequestOverflow(size) || (NoRoom(s, RequestToSize(size)) && !Extensible(s, RequestToSize(size)))
    ensures GoesWrong(l, Resize(0, size)) <==> !RequestOverflow(size) && BeyondBins(s.own, RequestToSize(size))
    ensures AnswersNull(l, Resize(0, size)) <==> AnswersNull(l, Allocate(size))
    ensures BlocksAfter(blocks, Allocate(size), r) == if r == 0 then blocks else blocks + {r}
    ensures WordsAfter(words, Allocate(size), r, capacity) == words == WordsAfter(words, Resize(0, size), r, capacity)
    ensures 0 !in blocks ==> BlocksAfter(blocks, Resize(0, size), r) == if r == 0 then blocks else blocks + {r}
  {
    LookFacts(s, RequestToSize(size), 0, size);
    hide RequestToSize, Exhausted, EndingIn;
    assert 0 !in blocks ==> blocks - {0} == blocks;
  }

  lemma FreshBlock(m: Mem, cs: ChunkMap, m': Mem, cs': ChunkMap, r: int, n: nat, blocks: set<int>, words: map<(int, int), int>)
    requires Knows(m, cs, blocks, words) && Answer(m, cs, m', cs', r, n) && r != 0
    ensures r - PAYLOAD in Live(cs') && r !in blocks
  {
    assert r - PAYLOAD in Live(cs)[r - PAYLOAD := cs'[r - PAYLOAD].size];
  }

  lemma GrantsBlock(l: Look, blocks: set<int>, q: Request, r: int, capacity: int)
    requires q.Allocate? || q.Resize?
    requires r != 0 && !Ends(q) ==>
               && r - PAYLOAD in Live(l.chunks) && capacity == Live(l.chunks)[r - PAYLOAD] - HEADER
               && (q.size <= capacity <==> !RequestOverflow(q.size)) && (r !in blocks || (q.Resize? && r == q.ptr))
    ensures Granting(l, blocks, q, r, capacity)
  {
  }

  /** The client knows of the block. */
  lemma AfterGrant(s: KmState, m: Mem, cs: ChunkMap, size: nat, blocks: set<int>, words: map<(int, int), int>, r: int, capacity: int)
    requires Knows(m, cs, blocks, words) && Answer(m, cs, s.mem, s.chunks, r, RequestToSize(size)) && 0 !in cs && Valid(s)
    ensures Client(s, BlocksAfter(blocks, Allocate(size), r), WordsAfter(words, Allocate(size), r, capacity))
    ensures 0 !in blocks ==>
              Client(s, BlocksAfter(blocks, Resize(0, size), r), WordsAfter(words, Resize(0, size), r, capacity))
  {
    hide *;
    AllocateCases(s, LookOf(s), size, blocks, words, r, capacity);
    AfterAllocate(m, cs, s.mem, s.chunks, r, RequestToSize(size), blocks, words);
    ClientIs(s, if r == 0 then blocks else blocks + {r}, words);
  }

  /** What there is to say after kmalloc. */
  lemma AfterMalloc(s: KmState, l: Look, size: nat, blocks: set<int>, words: map<(int, int), int>, r: int) returns (capacity: int)
    requires Valid(s) && Knows(l.mem, l.chunks, blocks, words) && 0 !in l.chunks && l.heapStart == s.heapStart
    requires l.end.pager.Account() == s.frames
    requires Answer(l.mem, l.chunks, s.mem, s.chunks, r, RequestToSize(size))
    requires r != 0 ==> !RequestOverflow(size) && r - PAYLOAD in Live(s.chunks) && size <= Live(s.chunks)[r - PAYLOAD] - HEADER
    requires EndOf(s) == if RequestOverflow(size) then l.end else AllocatedEnd(l.own, l.dvSize, l.end, RequestToSize(size), true)
    requires Allotted(StockIn(l), l.end.top, RequestToSize(size), r, SizeAt(s.chunks, r - PAYLOAD), s.dv, s.dvSize)
    ensures Client(s, BlocksAfter(blocks, Allocate(size), r), WordsAfter(words, Allocate(size), r, capacity))
    ensures Granting(LookOf(s), blocks, Allocate(size), r, capacity) && Changes(l, Allocate(size), r, LookOf(s))
  {
    hide *;
    capacity := 0;
    if r != 0 {
      FreshBlock(l.mem, l.chunks, s.mem, s.chunks, r, RequestToSize(size), blocks, words);
      BlockHeader(s, r);
      capacity := Capacity(s, r);
    }
    AfterGrant(s, l.mem, l.chunks, size, blocks, words, r, capacity);
    LookIs(s);
    GrantsBlock(LookOf(s), blocks, Allocate(size), r, capacity);
    LookFormed(s);
    FoldAllocates(l, size, r, LookOf(s));
  }

  lemma BeforeMalloc(s: KmState, size: nat, blocks: set<int>, words: map<(int, int), int>)
    requires Client(s, blocks, words)
    ensures Valid(s) && s.heapStart != 0
    ensures var l := LookOf(s);
            && l.mem == s.mem && l.chunks == s.chunks && l.own == s.own && l.dvSize == s.dvSize && l.heapStart == s.heapStart
            && l.end == EndOf(s) && l.end.pager.Account() == s.frames && Knows(l.mem, l.chunks, blocks, words) && 0 !in l.chunks
            && StockIn(l) == StockOf(s) && l.end.top == s.top
    ensures GoesWrong(LookOf(s), Allocate(size)) <==> !RequestOverflow(size) && BeyondBins(s.own, RequestToSize(size))
    ensures AnswersNull(LookOf(s), Allocate(size)) <==>
              RequestOverflow(size) || (NoRoom(s, RequestToSize(size)) && !Extensible(s, RequestToSize(size)))
  {
    hide *;
    LookIs(s);
    ClientIs(s, blocks, words);
    LookFormed(s);
    ClientHeap(s, blocks, words);
    MallocCases(s, size);
    StockSeen(s);
  }

  lemma StockSeen(s: KmState)
    ensures StockIn(LookOf(s)) == StockOf(s) == Stock(s.own, s.ring, s.shape, s.dv, s.dvSize) && EndOf(s).top == s.top
    ensures LookOf(s).dv == s.dv && LookOf(s).dvSize == s.dvSize && LookOf(s).end.top == s.top
  {
  }

  lemma ClientHeap(s: KmState, blocks: set<int>, words: map<(int, int), int>)
    requires Client(s, blocks, words)
    ensures s.heapStart != 0 && 0 !in s.chunks
  {
    hide *;
    ClientFacts(s, blocks, words);
  }

  lemma MallocCases(s: KmState, size: nat)
    ensures GoesWrong(LookOf(s), Allocate(size)) <==> !RequestOverflow(size) && BeyondBins(s.own, RequestToSize(size))
    ensures AnswersNull(LookOf(s), Allocate(size)) <==>
              RequestOverflow(size) || (NoRoom(s, RequestToSize(size)) && !Extensible(s, RequestToSize(size)))
  {
    hide *;
    AllocateCases(s, LookOf(s), size, {}, map[], 0, 0);
  }

  method PerformAllocate(s: KmState, size: nat, blocks: set<int>, ghost words: map<(int, int), int>)
    returns (r: int, ghost capacity: int, wrong: bool)
    requires Client(s, blocks, words) && size < SIZE_T_LIMIT
    modifies s`mem, s`chunks, s`links, s`own, s`ring, s`shape, s`sbin, s`sbinmap, s`tbin, s`tbinmap, s`dv, s`dvSize
    modifies s`top, s`topSize, s`heapSize, s.pager
    ensures wrong <==> GoesWrong(old(LookOf(s)), Allocate(size))
    ensures !wrong ==> Client(s, BlocksAfter(blocks, Allocate(size), r), WordsAfter(words, Allocate(size), r, capacity))
    ensures !wrong ==> (r == 0 <==> AnswersNull(old(LookOf(s)), Allocate(size)))
    ensures !wrong ==> Granting(LookOf(s), blocks, Allocate(size), r, capacity)
    ensures !wrong ==> Changes(old(LookOf(s)), Allocate(size), r, LookOf(s))
  {
    hide *;
    ghost var l := LookOf(s);
    capacity := 0;
    BeforeMalloc(s, size, blocks, words);
    r, wrong := KMalloc(s, size);
    if !wrong {
      capacity := AfterMalloc(s, l, size, blocks, words, r);
    }
  }

  lemma FoldAllocates(l: Look, size: nat, r: int, l': Look)
    requires l'.heapStart == l.heapStart && l'.end.pager.Account() == l.end.pager.Account()
    requires Answer(l.mem, l.chunks, l'.mem, l'.chunks, r, RequestToSize(size))
    requires l'.end == if RequestOverflow(size) then l.end else AllocatedEnd(l.own, l.dvSize, l.end, RequestToSize(size), true)
    requires Allotted(StockIn(l), l.end.top, RequestToSize(size), r, SizeAt(l'.chunks, r - PAYLOAD), l'.dv, l'.dvSize)
    ensures Changes(l, Allocate(size), r, l')
  {
    hide AllocatedEnd, Answer, RequestToSize, PagerView.Account, RequestOverflow, Allotted, SizeAt;
  }

  /** krealloc of NULL allocates. */
  method PerformResizeOfNull(s: KmState, size: nat, blocks: set<int>, ghost words: map<(int, int), int>)
    returns (r: int, ghost capacity: int, wrong: bool)
    requires Client(s, blocks, words) && size < SIZE_T_LIMIT
    modifies s`mem, s`chunks, s`links, s`own, s`ring, s`shape, s`sbin, s`sbinmap, s`tbin, s`tbinmap, s`dv, s`dvSize
    modifies s`top, s`topSize, s`heapSize, s.pager, s`aborts
    ensures wrong <==> GoesWrong(old(LookOf(s)), Resize(0, size))
    ensures !wrong ==> Client(s, BlocksAfter(blocks, Resize(0, size), r), WordsAfter(words, Resize(0, size), r, capacity))
    ensures !wrong ==> (r == 0 <==> AnswersNull(old(LookOf(s)), Resize(0, size)))
    ensures !wrong ==> Granting(LookOf(s), blocks, Resize(0, size), r, capacity) && s.aborts == old(s.aborts)
    ensures !wrong ==> Changes(old(LookOf(s)), Resize(0, size), r, LookOf(s))
  {
    hide *;
    LookIs(s);
    ClientIs(s, blocks, words);
    LookFormed(s);
    ghost var m, cs, l := s.mem, s.chunks, LookOf(s);
    capacity := 0;
    ClientFacts(s, blocks, words);
    ClientIs(s, blocks, words);
    NullIsNoBlock(s, blocks, words);
    NullPointer(s);
    AllocateCases(s, l, size, blocks, words, 0, 0);
    StockSeen(s);
    LookFacts(s, RequestToSize(size), 0, size);
    var ending;
    r, ending := KRealloc(s, 0, size);
    wrong := ending != Done;
    if wrong {
      return;
    }
    if r != 0 {
      FreshBlock(m, cs, s.mem, s.chunks, r, RequestToSize(size), blocks, words);
      BlockHeader(s, r);
      capacity := Capacity(s, r);
    }
    AfterGrant(s, m, cs, size, blocks, words, r, capacity);
    LookIs(s);
    GrantsBlock(LookOf(s), blocks, Resize(0, size), r, capacity);
    ResizePlaces(l, 0, size, r, LookOf(s));
    ClientIs(s, BlocksAfter(blocks, Resize(0, size), r), WordsAfter(words, Resize(0, size), r, capacity));
    LookFormed(s);
    FoldResizes(l, 0, size, r, LookOf(s));
  }

  lemma FoldResizes(l: Look, p: int, size: nat, r: int, l': Look)
    requires l'.heapStart == l.heapStart && l'.end.pager.Account() == l.end.pager.Account()
    requires if p == 0 then Answer(l.mem, l.chunks, l'.mem, l'.chunks, r, RequestToSize(size))
             else if Ends(Resize(p, size)) then Released(l, p, l')
             else if r == 0 then Live(l'.chunks) == Live(l.chunks) && LiveKept(l.mem, l.chunks, l'.mem, l'.chunks, 0)
             else Reallocated(l.mem, l.chunks, l'.mem, l'.chunks, p - PAYLOAD, r - PAYLOAD, RequestToSize(size))
    requires l'.end == ReallocEnd(l.heapStart, l.own, l.dvSize, l.chunks, l.end, p, size, r, l'.end.top)
    requires Places(l, Resize(p, size), r, l')
    ensures Changes(l, Resize(p, size), r, l')
  {
    hide ReallocEnd, Answer, Reallocated, Released, RequestToSize, PagerView.Account, Ends, Live, LiveKept, Places;
  }

  lemma ResizePlaces(l: Look, p: int, size: nat, r: int, l': Look)
    requires if p == 0
             then Allotted(StockIn(l), l.end.top, RequestToSize(size), r, SizeAt(l'.chunks, r - PAYLOAD), l'.dv, l'.dvSize)
             else if Ends(Resize(p, size)) then Freed(l.chunks, l.end.top, l.dv, l.dvSize, p - PAYLOAD, l'.own, l'.dv, l'.dvSize)
             else ResizedTo(StockIn(l), l.chunks, l.end, p - PAYLOAD, RequestToSize(size), r, SizeAt(l'.chunks, r - PAYLOAD),
                          l'.own, l'.dv, l'.dvSize)
    ensures Places(l, Resize(p, size), r, l')
  {
    hide Allotted, Freed, ResizedTo, RequestToSize, SizeAt, Ends;
  }

  // ----- releasing

  lemma ReleaseCases(l: Look, p: int, blocks: set<int>, words: map<(int, int), int>)
    ensures !GoesWrong(l, Release(p)) && AnswersNull(l, Release(p)) && Ends(Release(p))
    ensures BlocksAfter(blocks, Release(p), 0) == blocks - {p} && WordsAfter(words, Release(p), 0, 0) == Others(words, p)
    ensures Granting(l, blocks, Release(p), 0, 0)
    ensures p != 0 ==> AnswersNull(l, Resize(p, 0)) && Ends(Resize(p, 0)) && !GoesWrong(l, Resize(p, 0))
    ensures p != 0 ==>
              && BlocksAfter(blocks, Resize(p, 0), 0) == blocks - {p}
              && WordsAfter(words, Resize(p, 0), 0, 0) == Others(words, p)
    ensures Granting(l, blocks, Resize(p, 0), 0, 0)
  {
    hide RequestToSize;
  }

  method PerformRelease(s: KmState, p: int, blocks: set<int>, ghost words: map<(int, int), int>)
    requires Client(s, blocks, words) && (p == 0 || p in blocks)
    modifies s`mem, s`chunks, s`links, s`own, s`ring, s`shape, s`sbin, s`sbinmap, s`tbin, s`tbinmap, s`dv, s`dvSize
    modifies s`top, s`topSize, s`heapSize, s.pager, s`aborts
    ensures Client(s, blocks - {p}, Others(words, p)) && s.aborts == old(s.aborts)
    ensures Changes(old(LookOf(s)), Release(p), 0, LookOf(s))
  {
    hide *;
    LookIs(s);
    ClientIs(s, blocks, words);
    LookFormed(s);
    ghost var m, cs, l := s.mem, s.chunks, LookOf(s);
    ClientFacts(s, blocks, words);
    ClientIs(s, blocks, words);
    NullIsNoBlock(s, blocks, words);
    NullPointer(s);
    StockSeen(s);
    KFree(s, p);
    LookIs(s);
    if p != 0 {
      AfterRelease(m, cs, s.mem, s.chunks, p, blocks, words);
      FoldReleased(l, p, LookOf(s));
    }
    ClientIs(s, blocks - {p}, Others(words, p));
    LookFormed(s);
    FoldReleases(l, p, LookOf(s));
  }

  lemma FoldReleased(l: Look, p: int, l': Look)
    requires Live(l'.chunks) == Live(l.chunks) - {p - PAYLOAD} && LiveKept(l.mem, l.chunks, l'.mem, l'.chunks, p - PAYLOAD)
    ensures Released(l, p, l')
  {
    hide Live, LiveKept;
  }

  lemma FoldReleases(l: Look, p: int, l': Look)
    requires l'.heapStart == l.heapStart && l'.end.pager.Account() == l.end.pager.Account()
    requires if p == 0 then l' == l
             else Released(l, p, l') && l'.end == FreedEnd(l.chunks, l.heapStart, l.end, p - PAYLOAD, l'.end.top)
    requires p != 0 ==> Freed(l.chunks, l.end.top, l.dv, l.dvSize, p - PAYLOAD, l'.own, l'.dv, l'.dvSize)
    ensures Changes(l, Release(p), 0, l')
  {
    hide FreedEnd, Released, PagerView.Account, Freed;
  }

  // ----- resizing

  lemma ResizeCases(s: KmState, l: Look, p: int, size: nat, blocks: set<int>, words: map<(int, int), int>, r: int, capacity: int)
    requires l == LookOf(s) && p != 0 && size != 0 && s.heapStart != 0
    ensures var n := RequestToSize(size);
            && (GoesWrong(l, Resize(p, size)) <==> EndingOf(s, p, size) != Done)
            && (AnswersNull(l, Resize(p, size)) <==>
                  n != 0 && Outgrows(s, p - PAYLOAD, n) && NoRoom(s, n) && !Extensible(s, n))
            && (n == 0 ==>
                  && BlocksAfter(blocks, Resize(p, size), r) == blocks - {p}
                  && WordsAfter(words, Resize(p, size), r, capacity) == Others(words, p))
            && (n == 0 <==> Ends(Resize(p, size)))
            && (n != 0 && r == 0 ==>
                  BlocksAfter(blocks, Resize(p, size), r) == blocks && WordsAfter(words, Resize(p, size), r, capacity) == words)
            && (n != 0 && r != 0 ==>
                  && BlocksAfter(blocks, Resize(p, size), r) == blocks - {p} + {r}
                  && WordsAfter(words, Resize(p, size), r, capacity) == Others(words, p) + MovedWords(words, p, r, capacity))
  {
    LookFacts(s, RequestToSize(size), p, size);
    hide RequestToSize, Exhausted, EndingIn, Outgrow;
  }

  lemma ResizedRoom(cs: ChunkMap, r: int, size: nat)
    requires r - PAYLOAD in Live(cs)
    ensures HasRoom(cs, r, size) <==> size <= Live(cs)[r - PAYLOAD] - HEADER
  {
  }

  method PerformResize(s: KmState, p: int, size: nat, blocks: set<int>, ghost words: map<(int, int), int>)
    returns (r: int, ghost capacity: int, wrong: bool)
    requires Client(s, blocks, words) && p in blocks && 0 < size < SIZE_T_LIMIT && p != 0
    modifies s`mem, s`chunks, s`links, s`own, s`ring, s`shape, s`sbin, s`sbinmap, s`tbin, s`tbinmap, s`dv, s`dvSize
    modifies s`top, s`topSize, s`heapSize, s.pager, s`aborts
    ensures wrong <==> GoesWrong(old(LookOf(s)), Resize(p, size))
    ensures !wrong ==> Client(s, BlocksAfter(blocks, Resize(p, size), r), WordsAfter(words, Resize(p, size), r, capacity))
    ensures !wrong ==> (r == 0 <==> AnswersNull(old(LookOf(s)), Resize(p, size)))
    ensures !wrong ==> Granting(LookOf(s), blocks, Resize(p, size), r, capacity) && s.aborts == old(s.aborts)
    ensures !wrong ==> Changes(old(LookOf(s)), Resize(p, size), r, LookOf(s))
  {
    hide *;
    LookIs(s);
    ClientIs(s, blocks, words);
    LookFormed(s);
    ghost var m, cs, n, l := s.mem, s.chunks, RequestToSize(size), LookOf(s);
    capacity := 0;
    ClientFacts(s, blocks, words);
    ClientIs(s, blocks, words);
    BlockHeader(s, p);
    ResizeCases(s, LookOf(s), p, size, blocks, words, 0, 0);
    ResizesIs(s, cs, p, size);
    StockSeen(s);
    var ending;
    r, ending := KRealloc(s, p, size);
    wrong := ending != Done;
    if wrong {
      return;
    }
    LookIs(s);
    if n == 0 {
      AfterRelease(m, cs, s.mem, s.chunks, p, blocks, words);
      FoldReleased(l, p, LookOf(s));
      ClientIs(s, blocks - {p}, Others(words, p));
    } else if r == 0 {
      AfterFailure(m, cs, s.mem, s.chunks, blocks, words);
      ClientIs(s, blocks, words);
    } else {
      ReallocatedLive(m, cs, s.mem, s.chunks, p - PAYLOAD, r - PAYLOAD, n);
      AfterResize(m, cs, s.mem, s.chunks, p, r, n, blocks, words);
      BlockHeader(s, r);
      capacity := Capacity(s, r);
      ResizedRoom(s.chunks, r, size);
      ClientIs(s, blocks - {p} + {r}, Others(words, p) + MovedWords(words, p, r, capacity));
    }
    ResizeCases(s, LookOf(s), p, size, blocks, words, r, capacity);
    GrantsBlock(LookOf(s), blocks, Resize(p, size), r, capacity);
    ResizePlaces(l, p, size, r, LookOf(s));
    LookFormed(s);
    FoldResizes(l, p, size, r, LookOf(s));
  }

  /** krealloc to size 0 releases the block. */
  method PerformResizeToNone(s: KmState, p: int, blocks: set<int>, ghost words: map<(int, int), int>) returns (r: int)
    requires Client(s, blocks, words) && p in blocks && p != 0
    modifies s`mem, s`chunks, s`links, s`own, s`ring, s`shape, s`sbin, s`sbinmap, s`tbin, s`tbinmap, s`dv, s`dvSize
    modifies s`top, s`topSize, s`heapSize, s.pager, s`aborts
    ensures r == 0 && Client(s, blocks - {p}, Others(words, p)) && s.aborts == old(s.aborts)
    ensures Changes(old(LookOf(s)), Resize(p, 0), 0, LookOf(s))
  {
    hide *;
    LookIs(s);
    ClientIs(s, blocks, words);
    LookFormed(s);
    ghost var m, cs, l := s.mem, s.chunks, LookOf(s);
    ClientFacts(s, blocks, words);
    ClientIs(s, blocks, words);
    SomeWord();
    EndingIs(s, p, 0);
    StockSeen(s);
    var ending;
    r, ending := KRealloc(s, p, 0);
    LookIs(s);
    AfterRelease(m, cs, s.mem, s.chunks, p, blocks, words);
    ClientIs(s, blocks - {p}, Others(words, p));
    FoldReleased(l, p, LookOf(s));
    LookFormed(s);
    ReleaseCases(l, p, blocks, words);
    ResizePlaces(l, p, 0, 0, LookOf(s));
    FoldResizes(l, p, 0, 0, LookOf(s));
  }

  lemma SomeWord()
    ensures SIZE_T_LIMIT > 0
  {
  }

  // ----- storing

  lemma StoreCases(l: Look, p: int, i: int, v: int, blocks: set<int>, words: map<(int, int), int>)
    ensures !GoesWrong(l, Store(p, i, v)) && AnswersNull(l, Store(p, i, v)) && Granting(l, blocks, Store(p, i, v), 0, 0)
    ensures BlocksAfter(blocks, Store(p, i, v), 0) == blocks && WordsAfter(words, Store(p, i, v), 0, 0) == words[(p, i) := v]
  {
  }

  method PerformStore(s: KmState, p: int, i: int, v: int, blocks: set<int>, ghost words: map<(int, int), int>)
    requires Client(s, blocks, words) && p in blocks
    requires i % 4 == 0 && 0 <= i <= SizeOf(W(s.mem, p - PAYLOAD + HEADER)) - HEADER - 4
    modifies s`mem
    ensures Client(s, blocks, words[(p, i) := v])
    ensures Changes(old(LookOf(s)), Store(p, i, v), 0, LookOf(s))
  {
    hide *;
    LookIs(s);
    ghost var m, cs, l := s.mem, s.chunks, LookOf(s);
    ClientFacts(s, blocks, words);
    ClientIs(s, blocks, words);
    BlockHeader(s, p);
    PrevWord(s.mem, p - PAYLOAD + HEADER);
    StoreWord(s, p, i, v);
    AfterStore(m, cs, p, i, v, blocks, words);
    ClientIs(s, blocks, words[(p, i) := v]);
    LookIs(s);
    FoldStores(l, p, i, v, LookOf(s));
  }

  lemma FoldStores(l: Look, p: int, i: int, v: int, l': Look)
    requires l' == l.(mem := l.mem[p + i := v])
    ensures Changes(l, Store(p, i, v), 0, l')
  {
    hide PagerView.Account;
  }

  // ----- runs

  lemma AdmissibleCases(m: Mem, q: Request, blocks: set<int>)
    requires Admissible(m, q, blocks)
    ensures q.Allocate? || q.Resize? ==> q.size < SIZE_T_LIMIT
    ensures !q.Allocate? ==> q.ptr in blocks || (q.ptr == 0 && !q.Store?)
    ensures q.Store? ==> q.offset % 4 == 0 && 0 <= q.offset <= SizeOf(W(m, q.ptr - PAYLOAD + HEADER)) - HEADER - 4
  {
  }

  /** One request of a client.  It is served unless the allocator goes wrong on it. */
  method Perform(s: KmState, q: Request, blocks: set<int>, ghost words: map<(int, int), int>)
    returns (r: int, ghost capacity: int, wrong: bool)
    requires Client(s, blocks, words) && Admissible(s.mem, q, blocks)
    modifies s`mem, s`chunks, s`links, s`own, s`ring, s`shape, s`sbin, s`sbinmap, s`tbin, s`tbinmap, s`dv, s`dvSize
    modifies s`top, s`topSize, s`heapSize, s.pager, s`aborts
    ensures wrong <==> GoesWrong(old(LookOf(s)), q)
    ensures !wrong ==> Client(s, BlocksAfter(blocks, q, r), WordsAfter(words, q, r, capacity)) && s.aborts == old(s.aborts)
    ensures !wrong ==> Served(Moment(old(LookOf(s)), blocks, words), q, r, capacity,
                              Moment(LookOf(s), BlocksAfter(blocks, q, r), WordsAfter(words, q, r, capacity)))
  {
    hide *;
    ghost var l := LookOf(s);
    r, capacity, wrong := 0, 0, false;
    AdmissibleCases(s.mem, q, blocks);
    match q {
      case Allocate(size) => r, capacity, wrong := PerformAllocate(s, size, blocks, words);
      case Release(p) =>
        ReleaseCases(l, p, blocks, words);
        PerformRelease(s, p, blocks, words);
        ReleaseCases(LookOf(s), p, blocks, words);
      case Resize(p, size) =>
        ReleaseCases(l, p, blocks, words);
        if p == 0 {
          r, capacity, wrong := PerformResizeOfNull(s, size, blocks, words);
        } else if size == 0 {
          r := PerformResizeToNone(s, p, blocks, words);
          ReleaseCases(LookOf(s), p, blocks, words);
        } else {
          r, capacity, wrong := PerformResize(s, p, size, blocks, words);
        }
      case Store(p, i, v) =>
        StoreCases(l, p, i, v, blocks, words);
        PerformStore(s, p, i, v, blocks, words);
        StoreCases(LookOf(s), p, i, v, blocks, words);
    }
    if !wrong {
      SoundIs(s, BlocksAfter(blocks, q, r), WordsAfter(words, q, r, capacity));
      FoldServed(Moment(l, blocks, words), q, r, capacity,
                 Moment(LookOf(s), BlocksAfter(blocks, q, r), WordsAfter(words, q, r, capacity)));
    }
  }

  /** What a run has come to: a moment before each request and one at the end, and the answers. */
  datatype Trace = Trace(moments: seq<Moment>, answers: seq<int>, capacities: seq<int>)

  /** A request that the client may make is served; the others are not made. */
  ghost predicate Steps(m: Moment, q: Request, r: int, capacity: int, m': Moment) {
    if Admissible(m.look.mem, q, m.blocks) then Served(m, q, r, capacity, m') else m' == m && r == 0
  }

  /** The moments of a run of these requests. */
  ghost predicate Follows(t: Trace, requests: seq<Request>) {
    && |t.moments| == |requests| + 1 && |t.answers| == |t.capacities| == |requests|
    && (forall k :: 0 <= k < |requests| ==> Steps(t.moments[k], requests[k], t.answers[k], t.capacities[k], t.moments[k + 1]))
  }

  /** kmalloc_init has made one top chunk of the heap. */
  ghost predicate Begins(m: Moment, start: int, size: nat) {
    && m.blocks == {} && m.words == map[] && m.look.chunks == map[] && m.look.own == map[]
    && m.look.dvSize == 0 && m.look.end.top == start == m.look.heapStart && m.look.end.topSize + 8 == size == m.look.end.heapSize
    && Sound(m)
  }

  lemma FollowsNone(m: Moment)
    ensures Follows(Trace([m], [], []), [])
  {
  }

  lemma FollowsNext(t: Trace, requests: seq<Request>, k: nat, r: int, capacity: int, m: Moment)
    requires k < |requests| && Follows(t, requests[..k]) && Steps(t.moments[k], requests[k], r, capacity, m)
    ensures Follows(Trace(t.moments + [m], t.answers + [r], t.capacities + [capacity]), requests[..k + 1])
  {
    hide Steps;
    var t' := Trace(t.moments + [m], t.answers + [r], t.capacities + [capacity]);
    forall j | 0 <= j < k + 1
      ensures Steps(t'.moments[j], requests[..k + 1][j], t'.answers[j], t'.capacities[j], t'.moments[j + 1])
    {
      if j < k {
        assert Steps(t.moments[j], requests[..k][j], t.answers[j], t.capacities[j], t.moments[j + 1]);
      }
    }
  }

  lemma StepsIs(m: Moment, q: Request, r: int, capacity: int, m': Moment)
    ensures Steps(m, q, r, capacity, m') <==>
              if Admissible(m.look.mem, q, m.blocks) then Served(m, q, r, capacity, m') else m' == m && r == 0
  {
  }

  lemma FollowsLength(t: Trace, requests: seq<Request>)
    requires Follows(t, requests)
    ensures |t.moments| == |requests| + 1
  {
  }

  /** Every run from kmalloc_init on.  The requests are served one by one, up to the first on which the allocator goes
      wrong, if there is one: each has its answer, NULL exactly when it must, a new block where it asks for one, and its
      effect on the blocks the client holds and the words it has stored; the heap stays well formed, nothing calls the
      abort callback, the pager's heap is the allocator's, and no frame is lost. */
  method Run(s: KmState, addr: nat, size: nat, requests: seq<Request>)
    returns (served: nat, blocks: set<int>, ghost words: map<(int, int), int>, ghost trace: Trace)
    requires s.heapStart == 0 && Mapped(s.mem, addr, addr + size) && HeapArgs(addr, size)
    requires PagerOK(s.pager, addr, s.pager.Account()) && s.pager.heapSize == size && addr != 0
    modifies s, s.pager
    ensures served <= |requests| && Follows(trace, requests[..served])
    ensures Begins(trace.moments[0], addr, size) && trace.moments[0].look.end.pager == old(s.pager.View())
    ensures served < |requests| ==>
              var m := trace.moments[served];
              Admissible(m.look.mem, requests[served], m.blocks) && GoesWrong(m.look, requests[served])
    ensures served == |requests| ==> Client(s, blocks, words) && trace.moments[served] == Moment(LookOf(s), blocks, words)
    ensures served == |requests| ==>
              && s.aborts == old(s.aborts) && s.pager.HeapOK() && s.pager.Account() == old(s.pager.Account())
              && s.pager.heapAddr == s.heapStart && s.pager.heapSize == s.heapSize
  {
    hide *;
    HeapNotEmpty(s.pager, addr);
    KmallocInit(s, addr, size);
    blocks, words := {}, map[];
    ClientStarts(s, addr, size);
    SoundIs(s, blocks, words);
    trace := Trace([Moment(LookOf(s), blocks, words)], [], []);
    RunBegins(s, addr, size);
    LookIs(s);
    FollowsNone(Moment(LookOf(s), blocks, words));
    assert requests[..0] == [];
    served := 0;
    while served < |requests|
      invariant served <= |requests| && Follows(trace, requests[..served]) && |trace.moments| == served + 1
      invariant Client(s, blocks, words) && trace.moments[served] == Moment(LookOf(s), blocks, words)
      invariant s.aborts == old(s.aborts) && s.frames == old(s.pager.Account())
      invariant Begins(trace.moments[0], addr, size) && trace.moments[0].look.end.pager == old(s.pager.View())
      decreases |requests| - served
    {
      var q := requests[served];
      LookIs(s);
      ghost var m := trace.moments[served];
      if Admissible(s.mem, q, blocks) {
        var r, capacity, wrong := Perform(s, q, blocks, words);
        if wrong {
          return;
        }
        blocks, words := BlocksAfter(blocks, q, r), WordsAfter(words, q, r, capacity);
        StepsIs(m, q, r, capacity, Moment(LookOf(s), blocks, words));
        FollowsNext(trace, requests, served, r, capacity, Moment(LookOf(s), blocks, words));
        trace := Trace(trace.moments + [Moment(LookOf(s), blocks, words)], trace.answers + [r], trace.capacities + [capacity]);
      } else {
        StepsIs(m, q, 0, 0, m);
        FollowsNext(trace, requests, served, 0, 0, m);
        trace := Trace(trace.moments + [m], trace.answers + [0], trace.capacities + [0]);
      }
      served := served + 1;
    }
    SizesHold(s, blocks, words);
  }

  lemma RunBegins(s: KmState, addr: int, size: nat)
    requires Initial(s, addr, size) && Sound(Moment(LookOf(s), {}, map[]))
    ensures Begins(Moment(LookOf(s), {}, map[]), addr, size)
  {
  }

  lemma HeapNotEmpty(p: Pager, addr: int)
    requires PagerOK(p, addr, p.Account())
    ensures p.heapSize > 0
  {
  }

  lemma SizesHold(s: KmState, blocks: set<int>, words: map<(int, int), int>)
    requires Client(s, blocks, words)
    ensures s.pager.heapAddr == s.heapStart && s.pager.heapSize == s.heapSize && s.pager.HeapOK()
    ensures s.pager.Account() == s.frames
  {
    ClientFacts(s, blocks, words);
    hide *;
    ValidIsLoose(s);
    UnfoldLoose(s, 0);
    AgreeIs(s);
  }

  lemma AgreeIs(s: KmState)
    requires SizesAgree(s)
    ensures s.pager.heapAddr == s.heapStart && s.pager.heapSize == s.heapSize && s.pager.HeapOK()
    ensures s.pager.Account() == s.frames && |s.frames| <= MEMORY_FRAMES
    ensures SizesOK(s.heapSize, s.pager.heapSize, s.initialHeapSize)
  {
  }

  lemma ClientStarts(s: KmState, addr: int, size: nat)
    requires Initial(s, addr, size)
    ensures Client(s, {}, map[])
  {
  }

  /** Every free chunk has exactly one place: it is the designated victim or on the one ring of its size; the
      rings hold nothing else and nothing twice; and a bitmap bit is set exactly when its bin has a ring. */
  lemma FreeChunkPlaces(s: KmState)
    requires Valid(s)
    ensures forall a :: a in s.chunks && !s.chunks[a].used ==>
              (a == s.dv) != (s.chunks[a].size in s.ring && a in s.ring[s.chunks[a].size])
    ensures forall r, i :: r in s.ring && 0 <= i < |s.ring[r]| ==>
              var a := s.ring[r][i]; a in s.chunks && !s.chunks[a].used && s.chunks[a].size == r && a != s.dv
    ensures forall r, i, j :: r in s.ring && 0 <= i < j < |s.ring[r]| ==> s.ring[r][i] != s.ring[r][j]
    ensures forall i :: 0 <= i < NBINS ==>
              (Bit(s.sbinmap, i) <==> 8 * i in s.ring) && (s.sbin[i] != 0 <==> Bit(s.sbinmap, i))
    ensures forall i :: 0 <= i < NBINS ==> (s.tbin[i] != 0 <==> Bit(s.tbinmap, i))
    ensures forall r :: r in s.ring && r >= MIN_LARGE ==> Bit(s.tbinmap, CalcTbin(r))
  {
    UnfoldBins(s);
    NoChunkAtZero(HeapOf(s));
    forall i | 0 <= i < NBINS
      ensures s.sbin[i] != 0 <==> 8 * i in s.ring
    {
      SmallHead(s.own, s.links, s.ring, s.shape, s.sbin, i);
    }
    RingsHold(s.own, s.links, s.ring, s.shape);
    forall r | r in s.ring && r >= MIN_LARGE
      ensures Bit(s.tbinmap, CalcTbin(r))
    {
      var a := s.ring[r][0];
      BinnedChunk(s, a);
      TreeBit(s, CalcTbin(r));
    }
    hide KmState.BinsOK, HeapOK, ListsOK;
  }

  lemma RingsHold(own: map<int, nat>, k: Links, ring: Rings, t: Shape)
    requires ListsOK(own, k, ring, t)
    ensures forall r, i :: r in ring && 0 <= i < |ring[r]| ==> ring[r][i] in own && own[ring[r][i]] == r
    ensures forall r, i, j :: r in ring && 0 <= i < j < |ring[r]| ==> ring[r][i] != ring[r][j]
    ensures forall a :: a in own ==> own[a] in ring && a in ring[own[a]]
    ensures forall r :: r in ring ==> |ring[r]| > 0
  {
    forall r | r in ring
      ensures |ring[r]| > 0 && NoDup(ring[r])
    {
      assert RingAt(k, ring[r]);
    }
  }
}
