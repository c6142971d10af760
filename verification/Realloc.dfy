/** Changing the size of a block: try_expand_chunk and krealloc. */
module Realloc {
  import opened BinIndex
  import opened Trie
  import opened FreeLists
  import opened HeapState
  import opened TreeSearch
  import opened TreeBins
  import opened Bins
  import opened Chunks
  import opened HeapOps
  import opened Top
  import opened Free
  import opened Malloc
  import opened Spoiled

  /** Block a has been resized where it is, to n bytes; what fits of its contents, and all other blocks, are as
      they were. */
  ghost predicate InPlace(m: Mem, cs: ChunkMap, m': Mem, cs': ChunkMap, a: int, n: nat) {
    && a in cs && a in cs' && cs'[a].size == n
    && Live(cs') == Live(cs)[a := n]
    && LiveKept(m, cs, m', cs', a)
    && BlockKept(m, m', a, if cs[a].size <= n then cs[a].size else n)
  }

  // ----- where the header of the remainder may be written

  /** Writing the remainder's header while the free chunk is still binned keeps the free lists intact exactly
      when the header misses the chunk's links and index. */
  lemma HeaderWriteExact(s: KmState, e: int, diff: nat)
    requires Valid(s) && e in s.own && diff % 8 == 0 && 0 < diff && diff + MIN_CHUNK < s.own[e]
    ensures Stored(s.mem[e + diff + HEADER := s.own[e] - diff + PINUSE], s.own, s.links, s.heapStart, s.heapStart + s.heapSize)
            <==> !HeaderOnFields(s.own[e], diff)
  {
    hide *;
    var size := s.own[e];
    var w, v := e + diff + HEADER, size - diff + PINUSE;
    var m := s.mem[w := v];
    ValidBins(s);
    BinnedChunk(s, e);
    if !HeaderOnFields(size, diff) {
      ValidIsLoose(s);
      UnfoldLoose(s, 0);
      UnfoldCore(s);
      MissesAll(HeapOf(s), s.own, e, diff);
      StoreElsewhere(s.mem, s.own, s.links, s.heapStart, s.heapStart + s.heapSize, w, v);
    } else {
      forall x | x in s.own
        ensures x % 8 == 0
      {
        BinnedAligned(s, x);
      }
      WordWritten(s.mem, w, v);
      HitLinks(m, s.own, s.links, s.ring, s.shape, s.heapStart, s.heapStart + s.heapSize, e, diff);
    }
  }

  /** Behind its fields, a binned chunk's payload is nobody's link. */
  lemma MissesAll(h: Heap, own: map<int, nat>, e: int, diff: nat)
    requires Tiled(h) && OwnFree(own, h.chunks) && e in own && 0 < diff && diff % 8 == 0 && diff + MIN_CHUNK < own[e]
    requires !HeaderOnFields(own[e], diff)
    ensures Clear(own, e + diff + HEADER)
  {
    forall x | x in own
      ensures e + diff + HEADER < x + HEADER || x + FieldsEnd(own[x]) <= e + diff + HEADER
    {
      if x != e {
        ApartChunks(h, e, x);
      } else {
        ChunkFacts(h, e);
      }
    }
    hide Tiled;
  }

  /** A header on a link or on the index destroys it: links are multiples of 8, and the index is below 32. */
  lemma HitLinks(m: Mem, own: map<int, nat>, k: Links, ring: Rings, t: Shape, lo: int, hi: int, e: int, diff: nat)
    requires ListsOK(own, k, ring, t) && e in own && diff % 8 == 0 && 0 < diff && diff + MIN_CHUNK < own[e] < SIZE_LIMIT
    requires own[e] % 8 == 0 && HeaderOnFields(own[e], diff) && (forall x :: x in own ==> x % 8 == 0)
    requires W(m, e + diff + HEADER) == own[e] - diff + PINUSE
    ensures !Stored(m, own, k, lo, hi)
  {
    if diff == 24 {
      LargeBin(own[e]);
      assert !FreeHeader(m, e, own[e]);
    } else {
      var f := if diff == 8 then Prev else Right;
      LinkIsChunk(own, k, ring, t, e, f);
      hide ListsOK;
      assert e + Offset(f) == e + diff + HEADER && HeapState.Has(own[e], f);
      assert Get(k, e, f) % 8 == 0;
      assert !LinksStored(m, own, k);
    }
    hide ListsOK;
  }

  lemma BinnedAligned(s: KmState, x: int)
    requires Valid(s) && x in s.own
    ensures x % 8 == 0
  {
    ChunkFacts(HeapOf(s), x);
  }

  // ----- try_expand_chunk, when a remainder is split off

  /** Block a of size bytes grows by d bytes into the free bytes behind it: the headers and the footer are
      written, the rest of the books is as it was when memory was m. */
  ghost predicate Expanding(s: KmState, m: Mem, a: int, d: nat, free: nat)
    reads s, s.pager
  {
    && s.BinsOK() && HeapOK(m, HeapOf(s)) && OwnFree(s.own, s.chunks) && BinnedBut(s.own, s.chunks, s.dv, 0)
    && VictimOK(s.chunks, s.dv, s.dvSize) && SizesAgree(s)
    && a in s.chunks && s.chunks[a].used && d % 8 == 0 && 0 < d && d + MIN_CHUNK <= free
    && s.mem == ExpandPartWords(m, a, s.chunks[a].size, d, free)
  }

  lemma UnfoldExpanding(s: KmState, m: Mem, a: int, d: nat, free: nat)
    requires Expanding(s, m, a, d, free)
    ensures s.BinsOK() && HeapOK(m, HeapOf(s)) && Tiled(HeapOf(s)) && OwnFree(s.own, s.chunks)
    ensures HeapOf(s) == Heap(s.chunks, s.top, s.topSize, s.heapStart, s.heapStart + s.heapSize, 0, 0)
    ensures BinnedBut(s.own, s.chunks, s.dv, 0) && VictimOK(s.chunks, s.dv, s.dvSize)
    ensures SizesAgree(s) && a in s.chunks && s.chunks[a].used && d <= free
    ensures 0 !in s.chunks && a != 0
    ensures d % 8 == 0 && 0 < d && d + MIN_CHUNK <= free && s.mem == ExpandPartWords(m, a, s.chunks[a].size, d, free)
  {
    hide Written;
    NoChunkAtZero(HeapOf(s));
  }

  lemma InPlaceBy(m: Mem, cs: ChunkMap, m': Mem, cs': ChunkMap, a: int, n: nat)
    requires a in cs && cs[a].size <= n && Live(cs') == Live(cs)[a := n]
    requires LiveKept(m, cs, m', cs', a) && BlockKept(m, m', a, cs[a].size)
    ensures InPlace(m, cs, m', cs', a, n)
  {
    assert a in Live(cs');
  }

  lemma TopPart(m: Mem, h: Heap, own: map<int, nat>, dv: int, dvSize: nat, a: int, d: nat)
    requires HeapOK(m, h) && h.holeSize == 0 && a in h.chunks && h.chunks[a].used && a + h.chunks[a].size == h.top
    requires OwnFree(own, h.chunks) && BinnedBut(own, h.chunks, dv, 0) && VictimOK(h.chunks, dv, dvSize)
    requires d % 8 == 0 && 0 < d && d + MIN_CHUNK <= h.topSize
    ensures var m', cs' := ExpandPartWords(m, a, h.chunks[a].size, d, h.topSize), ExpandTop(h, a, d).chunks;
            && HeapOK(m', Heap(cs', h.top + d, h.topSize - d, h.lo, h.hi, h.hole, 0))
            && OwnFree(own, cs') && BinnedBut(own, cs', dv, 0) && VictimOK(cs', dv, dvSize)
            && InPlace(m, h.chunks, m', cs', a, h.chunks[a].size + d)
  {
    hide Tiled, Written, LiveKept, BlockKept, Live;
    ExpandTopOK(m, h, a, d);
    LiveExpandTop(h, a, d);
    InPlaceBy(m, h.chunks, ExpandPartWords(m, a, h.chunks[a].size, d, h.topSize), ExpandTop(h, a, d).chunks,
              a, h.chunks[a].size + d);
  }

  /** The remainder is the new top chunk. */
  method PartFromTop(s: KmState, a: int, d: nat, ghost m: Mem)
    requires Expanding(s, m, a, d, s.topSize) && a + s.chunks[a].size == s.top
    modifies s`chunks, s`top, s`topSize
    ensures Valid(s) && InPlace(m, old(s.chunks), s.mem, s.chunks, a, old(s.chunks)[a].size + d)
    ensures s.top == old(s.top) + d && s.topSize == old(s.topSize) - d
  {
    hide *;
    UnfoldExpanding(s, m, a, d, s.topSize);
    ghost var h := HeapOf(s);
    TopPart(m, h, s.own, s.dv, s.dvSize, a, d);
    s.top := s.top + d;
    s.topSize := s.topSize - d;
    s.chunks := ExpandTop(h, a, d).chunks;
    FoldValid(s);
  }

  lemma NextPart(m: Mem, h: Heap, own: map<int, nat>, dv: int, dvSize: nat, a: int, d: nat)
    requires HeapOK(m, h) && Expands(h, a) && OwnFree(own, h.chunks) && BinnedBut(own, h.chunks, dv, 0)
    requires VictimOK(h.chunks, dv, dvSize)
    requires d % 8 == 0 && 0 < d && d + MIN_CHUNK <= h.chunks[a + h.chunks[a].size].size
    ensures var e := a + h.chunks[a].size;
            var free := h.chunks[e].size;
            var m', cs' := ExpandPartWords(m, a, h.chunks[a].size, d, free), ExpandPart(h, a, d).chunks;
            && HeapOK(m', Heap(cs', h.top, h.topSize, h.lo, h.hi, h.hole, 0))
            && InPlace(m, h.chunks, m', cs', a, h.chunks[a].size + d)
  {
    hide Tiled, Written, LiveKept, BlockKept, Live;
    ExpandPartOK(m, h, a, d);
    LiveExpandPart(h, a, d);
    InPlaceBy(m, h.chunks, ExpandPartWords(m, a, h.chunks[a].size, d, h.chunks[a + h.chunks[a].size].size),
              ExpandPart(h, a, d).chunks, a, h.chunks[a].size + d);
  }

  lemma NextPartBooks(h: Heap, own: map<int, nat>, dv: int, dvSize: nat, a: int, d: nat)
    requires Tiled(h) && Expands(h, a) && OwnFree(own, h.chunks) && BinnedBut(own, h.chunks, dv, 0)
    requires VictimOK(h.chunks, dv, dvSize) && 0 < d < h.chunks[a + h.chunks[a].size].size
    ensures var e, cs' := a + h.chunks[a].size, ExpandPart(h, a, d).chunks;
            var rest := h.chunks[e].size - d;
            && (dv == e ==> OwnFree(own, cs') && BinnedBut(own, cs', e + d, 0) && VictimOK(cs', e + d, rest))
            && (dv != e ==> e in own && own[e] == h.chunks[e].size && e + d != dv
                            && Placeless(own - {e}, cs', dv, dvSize, e + d, rest))
  {
    var e := a + h.chunks[a].size;
    MiddleIsNoChunk(h, e, d);
    NoChunkAtZero(h);
    ChunkFacts(h, a);
    ChunkFacts(h, e);
    hide Tiled;
  }

  /** The remainder is the new designated victim. */
  method PartFromVictim(s: KmState, a: int, d: nat, free: nat, ghost m: Mem)
    requires Expanding(s, m, a, d, free) && a + s.chunks[a].size == s.dv && Expands(HeapOf(s), a)
    requires s.dv in s.chunks && s.chunks[s.dv].size == free
    modifies s`chunks, s`dv, s`dvSize
    ensures Valid(s) && InPlace(m, old(s.chunks), s.mem, s.chunks, a, old(s.chunks)[a].size + d)
    ensures s.dv == old(s.dv) + d && d + s.dvSize == free
  {
    hide *;
    UnfoldExpanding(s, m, a, d, free);
    ghost var h := HeapOf(s);
    NextPart(m, h, s.own, s.dv, s.dvSize, a, d);
    BelowFree(d, free);
    NextPartBooks(h, s.own, s.dv, s.dvSize, a, d);
    s.dv := s.dv + d;
    s.dvSize := free - d;
    s.chunks := ExpandPart(h, a, d).chunks;
    FoldValid(s);
  }

  lemma BelowFree(d: nat, free: nat)
    requires d + MIN_CHUNK <= free
    ensures d < free && HEADER < free - d
  {
  }

  /** The three words were written before the chunk behind left its bin. */
  lemma ExpandCommutes(m: Mem, h: Heap, own: map<int, nat>, dv: int, dvSize: nat, a: int, d: nat, m2: Mem)
    requires HeapOK(m, h) && Expands(h, a) && OwnFree(own, h.chunks) && BinnedBut(own, h.chunks, dv, 0)
    requires VictimOK(h.chunks, dv, dvSize)
    requires d % 8 == 0 && 0 < d && d + MIN_CHUNK <= h.chunks[a + h.chunks[a].size].size
    requires KeptOutside(ExpandPartWords(m, a, h.chunks[a].size, d, h.chunks[a + h.chunks[a].size].size), m2, own)
    requires W(m2, a + h.chunks[a].size + d + HEADER) == h.chunks[a + h.chunks[a].size].size - d + PINUSE
    ensures var cs' := ExpandPart(h, a, d).chunks;
            && HeapOK(m2, Heap(cs', h.top, h.topSize, h.lo, h.hi, h.hole, 0))
            && InPlace(m, h.chunks, m2, cs', a, h.chunks[a].size + d)
  {
    hide *;
    ExpandsAt(h, a);
    var e := a + h.chunks[a].size;
    var x, y, z := a + HEADER, e + d + HEADER, e + h.chunks[e].size;
    ExpandWordsOutside(m, h, own, a, d);
    var m1 := m2[x := W(m, x)][y := W(m, y)][z := W(m, z)];
    RestoredThree(m, own, a, h.chunks[a].size, d, h.chunks[e].size, m2);
    KeptByBins(m, m1, h, own);
    NextPart(m1, h, own, dv, dvSize, a, d);
    InPlaceAfter(m, h.chunks, m1, m2, ExpandPart(h, a, d).chunks, a, h.chunks[a].size + d);
  }

  lemma ExpandsAt(h: Heap, a: int)
    requires Expands(h, a)
    ensures a in h.chunks && a + h.chunks[a].size in h.chunks
  {
  }

  lemma InPlaceAfter(m: Mem, cs: ChunkMap, m1: Mem, m2: Mem, cs': ChunkMap, a: int, n: nat)
    requires LiveKept(m, cs, m1, cs, 0) && InPlace(m1, cs, m2, cs', a, n) && a in cs && cs[a].used && a != 0 && 0 !in cs
    ensures InPlace(m, cs, m2, cs', a, n)
  {
    LiveTransBut(m, cs, m1, cs, m2, cs', a);
  }

  lemma ExpandWordsOutside(m: Mem, h: Heap, own: map<int, nat>, a: int, d: nat)
    requires HeapOK(m, h) && Expands(h, a) && OwnFree(own, h.chunks) && d % 8 == 0 && 0 < d
    requires d + MIN_CHUNK <= h.chunks[a + h.chunks[a].size].size
    ensures var e := a + h.chunks[a].size;
            var x, y, z := a + HEADER, e + d + HEADER, e + h.chunks[e].size;
            && x in m && y in m && z in m && x < y < z && Outside(own, x) && Outside(own, z)
    ensures 0 !in h.chunks && a != 0 && h.chunks[a].used && a in h.chunks
  {
    ExpandPartOK(m, h, a, d);
    OutsideChunks(h, own, a);
    OutsideChunks(h, own, a + h.chunks[a].size);
    NoChunkAtZero(h);
    ApartChunks(h, a, a + h.chunks[a].size);
    hide Tiled, Written;
  }

  /** A header that misses the fields stays. */
  lemma HeaderStays(m: Mem, h: Heap, own: map<int, nat>, a: int, d: nat, m2: Mem)
    requires Tiled(h) && Expands(h, a) && OwnFree(own, h.chunks) && d % 8 == 0 && 0 < d
    requires d + MIN_CHUNK <= h.chunks[a + h.chunks[a].size].size && !HeaderOnFields(h.chunks[a + h.chunks[a].size].size, d)
    requires a + h.chunks[a].size in own
    requires KeptOutside(ExpandPartWords(m, a, h.chunks[a].size, d, h.chunks[a + h.chunks[a].size].size), m2, own)
    ensures W(m2, a + h.chunks[a].size + d + HEADER) == h.chunks[a + h.chunks[a].size].size - d + PINUSE
  {
    var e := a + h.chunks[a].size;
    assert Outside(own, e + d + HEADER) by {
      forall x | x in own
        ensures e + d + HEADER < x + PAYLOAD || x + FieldsEnd(own[x]) <= e + d + HEADER
      {
        if x != e {
          ApartChunks(h, e, x);
        }
      }
    }
    ExpandWords(m, a, h.chunks[a].size, d, h.chunks[e].size);
    hide Tiled, Outside, ExpandPartWords;
  }

  lemma ExpandWords(m: Mem, a: int, size: nat, d: nat, free: nat)
    requires d <= free && HEADER < free - d
    ensures var m' := ExpandPartWords(m, a, size, d, free);
            a + size + d + HEADER in m' && m'[a + size + d + HEADER] == free - d + PINUSE
  {
  }

  lemma RestoredThree(m: Mem, own: map<int, nat>, a: int, size: nat, d: nat, free: nat, m2: Mem)
    requires d <= free
    requires var x, y, z := a + HEADER, a + size + d + HEADER, a + size + free;
             x in m && y in m && z in m && x < y < z && Outside(own, x) && Outside(own, z)
    requires KeptOutside(ExpandPartWords(m, a, size, d, free), m2, own) && W(m2, a + size + d + HEADER) == free - d + PINUSE
    ensures var x, y, z := a + HEADER, a + size + d + HEADER, a + size + free;
            var m1 := m2[x := W(m, x)][y := W(m, y)][z := W(m, z)];
            KeptOutside(m, m1, own) && ExpandPartWords(m1, a, size, d, free) == m2
  {
  }

  /** The remainder goes into its bin, in place of the chunk it was cut from. */
  method PartFromBin(s: KmState, a: int, d: nat, free: nat, next: int, ghost m: Mem)
    requires Expanding(s, m, a, d, free) && a + s.chunks[a].size == next && next != s.dv && Expands(HeapOf(s), a)
    requires next in s.chunks && s.chunks[next].size == free && !HeaderOnFields(free, d)
    modifies s`mem, s`chunks, s`links, s`own, s`ring, s`shape, s`sbin, s`sbinmap, s`tbin, s`tbinmap
    ensures Valid(s) && InPlace(m, old(s.chunks), s.mem, s.chunks, a, old(s.chunks)[a].size + d)
    ensures next + d in s.own && d + s.own[next + d] == free
  {
    hide *;
    UnfoldExpanding(s, m, a, d, free);
    ghost var h, own := HeapOf(s), s.own;
    BelowFree(d, free);
    NextPartBooks(h, own, s.dv, s.dvSize, a, d);
    UnbinChunk(s, next);
    ghost var m2 := s.mem;
    HeaderStays(m, h, own, a, d, m2);
    ExpandCommutes(m, h, own, s.dv, s.dvSize, a, d, m2);
    s.chunks := ExpandPart(h, a, d).chunks;
    FoldClosed(s, next + d, free - d);
    BinFree(s, next + d, free - d);
    InPlaceBefore(m, h.chunks, m2, s.chunks, s.mem, a, h.chunks[a].size + d);
  }

  /** The same when the remainder's header has fallen on a field of the chunk behind. */
  method PartFromSpoiled(s: KmState, a: int, d: nat, free: nat, next: int, ghost m: Mem, ghost k0: Links) returns (fault: bool)
    requires SpoiledBy(s, next, d, free - d + PINUSE, k0) && HeapOK(m, HeapOf(s)) && OwnFree(s.own, s.chunks)
    requires BinnedBut(s.own, s.chunks, s.dv, 0) && VictimOK(s.chunks, s.dv, s.dvSize)
    requires SizesAgree(s)
    requires a in s.chunks && s.chunks[a].used && d % 8 == 0 && 0 < d && d + MIN_CHUNK <= free
    requires s.mem == ExpandPartWords(m, a, s.chunks[a].size, d, free)
    requires a + s.chunks[a].size == next && next != s.dv && Expands(HeapOf(s), a)
    requires next in s.chunks && s.chunks[next].size == free
    modifies s`mem, s`chunks, s`links, s`own, s`ring, s`shape, s`sbin, s`sbinmap, s`tbin, s`tbinmap
    ensures fault <==> !(d == 8 && Get(k0, next, Next) == next)
    ensures !fault ==> Valid(s) && InPlace(m, old(s.chunks), s.mem, s.chunks, a, old(s.chunks)[a].size + d)
    ensures !fault ==> next + d in s.own && d + s.own[next + d] == free
  {
    hide *;
    ghost var h, own := HeapOf(s), s.own;
    HeapIs(s, m);
    BelowFree(d, free);
    NextPartBooks(h, own, s.dv, s.dvSize, a, d);
    ExpandWords(m, a, s.chunks[a].size, d, free);
    WordIs(s.mem, next + d + HEADER);
    fault := UnbinSpoiled(s, next, d, free - d + PINUSE, k0);
    if fault {
      return;
    }
    Offsets();
    ghost var m2 := s.mem;
    ExpandCommutes(m, h, own, s.dv, s.dvSize, a, d, m2);
    s.chunks := ExpandPart(h, a, d).chunks;
    FoldClosed(s, next + d, free - d);
    BinFree(s, next + d, free - d);
    InPlaceBefore(m, h.chunks, m2, s.chunks, s.mem, a, h.chunks[a].size + d);
  }

  lemma HeapIs(s: KmState, m: Mem)
    requires HeapOK(m, HeapOf(s))
    ensures Tiled(HeapOf(s)) && 0 !in s.chunks
    ensures HeapOf(s) == Heap(s.chunks, s.top, s.topSize, s.heapStart, s.heapStart + s.heapSize, 0, 0)
  {
    hide Written;
    NoChunkAtZero(HeapOf(s));
  }

  lemma WordIs(m: Mem, w: int)
    ensures w in m ==> W(m, w) == m[w]
  {
  }

  lemma InPlaceBefore(m: Mem, cs: ChunkMap, m1: Mem, cs': ChunkMap, m2: Mem, a: int, n: nat)
    requires InPlace(m, cs, m1, cs', a, n) && LiveKept(m1, cs', m2, cs', 0) && a in cs && cs[a].used && a != 0 && 0 !in cs
    ensures InPlace(m, cs, m2, cs', a, n)
  {
    assert a in Live(cs') && cs'[a].used && BlockKept(m1, m2, a, cs'[a].size);
    forall b | b in cs && cs[b].used && b != a
      ensures b in cs' && cs'[b].used && cs'[b].size == cs[b].size && BlockKept(m, m2, b, cs[b].size)
    {
      assert BlockKept(m, m1, b, cs[b].size);
      assert BlockKept(m1, m2, b, cs'[b].size);
    }
  }

  // ----- try_expand_chunk, when the free chunk behind is used up

  /** Block a of size bytes takes all the free bytes behind it: its header is written, the rest of the books is
      as it was when memory was m. */
  ghost predicate Swallowing(s: KmState, m: Mem, a: int, free: nat)
    reads s, s.pager
  {
    && s.BinsOK() && HeapOK(m, HeapOf(s)) && OwnFree(s.own, s.chunks) && BinnedBut(s.own, s.chunks, s.dv, 0)
    && VictimOK(s.chunks, s.dv, s.dvSize) && SizesAgree(s)
    && a in s.chunks && s.chunks[a].used
    && s.mem == m[a + HEADER := s.chunks[a].size + free + CINUSE + W(m, a + HEADER) % 2]
  }

  lemma UnfoldSwallowing(s: KmState, m: Mem, a: int, free: nat)
    requires Swallowing(s, m, a, free)
    ensures s.BinsOK() && HeapOK(m, HeapOf(s)) && Tiled(HeapOf(s)) && OwnFree(s.own, s.chunks)
    ensures HeapOf(s) == Heap(s.chunks, s.top, s.topSize, s.heapStart, s.heapStart + s.heapSize, 0, 0)
    ensures BinnedBut(s.own, s.chunks, s.dv, 0) && VictimOK(s.chunks, s.dv, s.dvSize)
    ensures SizesAgree(s) && a in s.chunks && s.chunks[a].used && 0 !in s.chunks && a != 0
    ensures s.mem == m[a + HEADER := s.chunks[a].size + free + CINUSE + W(m, a + HEADER) % 2]
  {
    hide Written;
    NoChunkAtZero(HeapOf(s));
  }

  /** The words at the top chunk and the dummy chunk. */
  lemma TopFacts(m: Mem, h: Heap)
    requires HeapOK(m, h)
    ensures Tiled(h) && h.topSize % 8 == 0 && h.top !in h.chunks && (forall a :: a in h.chunks ==> a < h.top)
    ensures h.top + h.topSize + HEADER in m && m[h.top + h.topSize + HEADER] == 0 && h.top + h.topSize in m
  {
    BoundsOf(h);
    AllBelowTop(h);
    assert Mapped(m, h.lo, h.hi) && TopAt(m, h);
    hide Tiled, Written;
  }

  lemma ExpandTopIs(h: Heap, a: int, d: nat)
    requires a in h.chunks && d <= h.topSize
    ensures ExpandTop(h, a, d) ==
              Heap(h.chunks[a := h.chunks[a].(size := h.chunks[a].size + d)], h.top + d, h.topSize - d, h.lo, h.hi, h.hole, h.holeSize)
  {
  }

  /** Another size of a block in use does not concern the free chunks. */
  lemma ResizedBooks(own: map<int, nat>, cs: ChunkMap, dv: int, dvSize: nat, a: int, n: nat)
    requires OwnFree(own, cs) && BinnedBut(own, cs, dv, 0) && VictimOK(cs, dv, dvSize) && a in cs && cs[a].used
    ensures var cs' := cs[a := cs[a].(size := n)];
            OwnFree(own, cs') && BinnedBut(own, cs', dv, 0) && VictimOK(cs', dv, dvSize)
  {
  }

  lemma TopWhole(m: Mem, h: Heap, own: map<int, nat>, dv: int, dvSize: nat, a: int)
    requires HeapOK(m, h) && h.holeSize == 0 && a in h.chunks && h.chunks[a].used && a + h.chunks[a].size == h.top
    requires OwnFree(own, h.chunks) && BinnedBut(own, h.chunks, dv, 0) && VictimOK(h.chunks, dv, dvSize) && h.topSize > 0
    ensures var size := h.chunks[a].size + h.topSize;
            var m', cs' := m[a + HEADER := size + CINUSE + W(m, a + HEADER) % 2], ExpandTop(h, a, h.topSize).chunks;
            && HeapOK(m', Heap(cs', h.top + h.topSize, 0, h.lo, h.hi, h.hole, 0))
            && OwnFree(own, cs') && BinnedBut(own, cs', dv, 0) && VictimOK(cs', dv, dvSize)
            && InPlace(m, h.chunks, m', cs', a, size)
    ensures h.top + h.topSize + HEADER in m && h.top + h.topSize != a && m[h.top + h.topSize + HEADER] == 0
  {
    hide *;
    TopFacts(m, h);
    ExpandTopOK(m, h, a, h.topSize);
    LiveExpandTop(h, a, h.topSize);
    ExpandTopIs(h, a, h.topSize);
    ResizedBooks(own, h.chunks, dv, dvSize, a, h.chunks[a].size + h.topSize);
    var size := h.chunks[a].size + h.topSize;
    InPlaceBy(m, h.chunks, m[a + HEADER := size + CINUSE + W(m, a + HEADER) % 2], ExpandTop(h, a, h.topSize).chunks,
              a, size);
  }

  /** The top chunk is used up.  Its place is the dummy chunk's, whose header stays 0. */
  method WholeFromTop(s: KmState, a: int, ghost m: Mem)
    requires Swallowing(s, m, a, s.topSize) && a + s.chunks[a].size == s.top && s.topSize > 0
    modifies s`chunks, s`top, s`topSize
    ensures Valid(s) && InPlace(m, old(s.chunks), s.mem, s.chunks, a, old(s.chunks)[a].size + old(s.topSize))
    ensures s.top + HEADER in s.mem && s.mem[s.top + HEADER] == 0 && s.top == old(s.top) + old(s.topSize) && s.topSize == 0
  {
    hide *;
    UnfoldSwallowing(s, m, a, s.topSize);
    ghost var h := HeapOf(s);
    TopWhole(m, h, s.own, s.dv, s.dvSize, a);
    s.top := s.top + s.topSize;
    s.topSize := 0;
    s.chunks := ExpandTop(h, a, h.topSize).chunks;
    FoldValid(s);
  }

  lemma NextWhole(m: Mem, h: Heap, own: map<int, nat>, a: int)
    requires HeapOK(m, h) && Expands(h, a) && OwnFree(own, h.chunks)
    ensures a in h.chunks && h.chunks[a].used && a + h.chunks[a].size in h.chunks
    ensures var size := h.chunks[a].size + h.chunks[a + h.chunks[a].size].size;
            && a + size in h.chunks && a + size + HEADER in m && W(m, a + size + HEADER) != 0 && a + HEADER in m && size != 0
            && Clear(own, a + size + HEADER) && h.lo <= a + size + HEADER <= h.hi - 4
            && Outside(own, a + HEADER) && Outside(own, a + size + HEADER)
    ensures var size := h.chunks[a].size + h.chunks[a + h.chunks[a].size].size;
            var m' := m[a + HEADER := size + CINUSE + W(m, a + HEADER) % 2]
                       [a + size + HEADER := OrPinuse(W(m, a + size + HEADER))];
            && HeapOK(m', Heap(ExpandWhole(h, a).chunks, h.top, h.topSize, h.lo, h.hi, h.hole, 0))
            && InPlace(m, h.chunks, m', ExpandWhole(h, a).chunks, a, size)
  {
    hide Tiled, Written, LiveKept, BlockKept, Live, OrPinuse;
    ExpandWholeOK(m, h, a);
    LiveExpandWhole(h, a);
    var e := a + h.chunks[a].size;
    var size := h.chunks[a].size + h.chunks[e].size;
    var n := a + size;
    ChunkFacts(h, n);
    ChunkFacts(h, a);
    ChunkFacts(h, e);
    FreeHasNext(h, e);
    ChunkIsClear(h, own, n);
    OutsideChunks(h, own, a);
    OutsideChunks(h, own, n);
    InPlaceBy(m, h.chunks, m[a + HEADER := size + CINUSE + W(m, a + HEADER) % 2][n + HEADER := OrPinuse(W(m, n + HEADER))],
              ExpandWhole(h, a).chunks, a, size);
  }

  lemma SwallowedBooks(cs: ChunkMap, own: map<int, nat>, dv: int, dvSize: nat, a: int, e: int, n: int, size: nat)
    requires OwnFree(own, cs) && BinnedBut(own, cs, dv, 0) && VictimOK(cs, dv, dvSize) && 0 !in cs
    requires a in cs && e in cs && n in cs && cs[a].used && !cs[e].used && cs[n].used
    ensures var cs' := (cs - {e})[n := cs[n].(pinuse := true)][a := cs[a].(size := size)];
            && (dv == e ==> OwnFree(own, cs') && BinnedBut(own, cs', 0, 0) && VictimOK(cs', 0, 0))
            && (dv != e ==> e in own && OwnFree(own - {e}, cs') && BinnedBut(own - {e}, cs', dv, 0)
                            && VictimOK(cs', dv, dvSize))
  {
  }

  lemma NextWholeBooks(h: Heap, own: map<int, nat>, dv: int, dvSize: nat, a: int)
    requires Tiled(h) && Expands(h, a) && OwnFree(own, h.chunks) && BinnedBut(own, h.chunks, dv, 0)
    requires VictimOK(h.chunks, dv, dvSize)
    requires var e := a + h.chunks[a].size; e + h.chunks[e].size in h.chunks
    ensures var e, cs' := a + h.chunks[a].size, ExpandWhole(h, a).chunks;
            && (dv == e ==> OwnFree(own, cs') && BinnedBut(own, cs', 0, 0) && VictimOK(cs', 0, 0))
            && (dv != e ==> e in own && OwnFree(own - {e}, cs') && BinnedBut(own - {e}, cs', dv, 0)
                            && VictimOK(cs', dv, dvSize))
  {
    hide OwnFree, BinnedBut, VictimOK, Tiled;
    var e := a + h.chunks[a].size;
    NoChunkAtZero(h);
    FreeHasNext(h, e);
    SwallowedBooks(h.chunks, own, dv, dvSize, a, e, e + h.chunks[e].size, h.chunks[a].size + h.chunks[e].size);
  }

  /** The header of a was written before the chunk behind left its bin. */
  lemma SwallowCommutes(m: Mem, h: Heap, own: map<int, nat>, a: int, m2: Mem)
    requires HeapOK(m, h) && Expands(h, a) && OwnFree(own, h.chunks) && 0 !in h.chunks && a != 0
    requires KeptOutside(m[a + HEADER := h.chunks[a].size + h.chunks[a + h.chunks[a].size].size + CINUSE + W(m, a + HEADER) % 2],
                         m2, own)
    ensures var size := h.chunks[a].size + h.chunks[a + h.chunks[a].size].size;
            var n := a + size;
            && n in h.chunks && n + HEADER in m2 && m2[n + HEADER] != 0 && a + HEADER in m2
            && m2[a + HEADER] == size + CINUSE + W(m, a + HEADER) % 2
            && var m' := m2[n + HEADER := OrPinuse(m2[n + HEADER])];
            && HeapOK(m', Heap(ExpandWhole(h, a).chunks, h.top, h.topSize, h.lo, h.hi, h.hole, 0))
            && InPlace(m, h.chunks, m', ExpandWhole(h, a).chunks, a, size)
  {
    hide *;
    ExpandsAt(h, a);
    NextWhole(m, h, own, a);
    var size := h.chunks[a].size + h.chunks[a + h.chunks[a].size].size;
    RestoredOne(m, own, a + HEADER, size + CINUSE + W(m, a + HEADER) % 2, a + size + HEADER, m2);
    var m1 := m2[a + HEADER := W(m, a + HEADER)];
    KeptByBins(m, m1, h, own);
    NextWhole(m1, h, own, a);
    InPlaceAfter(m, h.chunks, m1, m2[a + size + HEADER := OrPinuse(m2[a + size + HEADER])], ExpandWhole(h, a).chunks, a, size);
  }

  lemma RestoredOne(m: Mem, own: map<int, nat>, x: int, v: int, y: int, m2: Mem)
    requires x in m && y in m && x != y && Outside(own, x) && Outside(own, y) && KeptOutside(m[x := v], m2, own)
    ensures var m1 := m2[x := W(m, x)];
            && KeptOutside(m, m1, own) && m1[x := v] == m2 && W(m1, x) == W(m, x)
            && y in m2 && m2[y] == W(m1, y) && x in m2 && m2[x] == v
  {
  }

  /** The books once the free chunk next is the designated victim or binned no longer and a has taken its bytes. */
  ghost predicate Dropping(own: map<int, nat>, dv: int, dvSize: nat, h: Heap, a: int, next: int, free: nat) {
    && a in h.chunks && a + h.chunks[a].size == next && next in h.chunks && h.chunks[next].size == free
    && next + free in h.chunks
    && (dv == next ==> Dropped(own, 0, 0, h, a))
    && (dv != next ==> next in own && Dropped(own - {next}, dv, dvSize, h, a))
  }

  ghost predicate Dropped(own: map<int, nat>, dv: int, dvSize: nat, h: Heap, a: int) {
    && Expands(h, a) && a + h.chunks[a].size + h.chunks[a + h.chunks[a].size].size in h.chunks
    && BooksAgree(own, ExpandWhole(h, a).chunks, dv, dvSize)
  }

  lemma UnfoldDropped(own: map<int, nat>, dv: int, dvSize: nat, h: Heap, a: int)
    requires Dropped(own, dv, dvSize, h, a)
    ensures a in h.chunks && a + h.chunks[a].size in h.chunks
    ensures a + h.chunks[a].size + h.chunks[a + h.chunks[a].size].size in h.chunks
    ensures BooksAgree(own, ExpandWhole(h, a).chunks, dv, dvSize)
  {
  }

  lemma FoldDropping(own: map<int, nat>, dv: int, dvSize: nat, h: Heap, a: int, next: int, free: nat)
    requires Expands(h, a) && a + h.chunks[a].size == next && h.chunks[next].size == free
    requires next + free in h.chunks
    requires dv == next ==> var cs' := ExpandWhole(h, a).chunks; OwnFree(own, cs') && BinnedBut(own, cs', 0, 0) && VictimOK(cs', 0, 0)
    requires dv != next ==> var cs' := ExpandWhole(h, a).chunks;
                            && next in own && OwnFree(own - {next}, cs') && BinnedBut(own - {next}, cs', dv, 0)
                            && VictimOK(cs', dv, dvSize)
    ensures Dropping(own, dv, dvSize, h, a, next, free)
  {
  }

  lemma UnfoldDropping(own: map<int, nat>, dv: int, dvSize: nat, h: Heap, a: int, next: int, free: nat)
    requires Dropping(own, dv, dvSize, h, a, next, free)
    ensures a in h.chunks && a + h.chunks[a].size == next && next in h.chunks && h.chunks[next].size == free
    ensures next + free in h.chunks
    ensures dv == next ==> Dropped(own, 0, 0, h, a)
    ensures dv != next ==> next in own && Dropped(own - {next}, dv, dvSize, h, a)
  {
  }

  lemma BeforeSwallow(s: KmState, a: int, free: nat, next: int, m: Mem)
    requires Swallowing(s, m, a, free) && a + s.chunks[a].size == next && Expands(HeapOf(s), a)
    requires next in s.chunks && s.chunks[next].size == free
    ensures Dropping(s.own, s.dv, s.dvSize, HeapOf(s), a, next, free)
    ensures HeapOf(s) == Heap(s.chunks, s.top, s.topSize, s.heapStart, s.heapStart + s.heapSize, 0, 0)
    ensures Tiled(HeapOf(s)) && HeapOK(m, HeapOf(s)) && OwnFree(s.own, s.chunks) && s.BinsOK() && a != 0 && 0 !in s.chunks
    ensures Clear(s.own, next + free + HEADER)
    ensures s.heapStart <= next + free + HEADER <= s.heapStart + s.heapSize - 4 && SizesAgree(s)
    ensures s.mem == m[a + HEADER := s.chunks[a].size + free + CINUSE + W(m, a + HEADER) % 2]
  {
    hide *;
    UnfoldSwallowing(s, m, a, free);
    NextWhole(m, HeapOf(s), s.own, a);
    NextWholeBooks(HeapOf(s), s.own, s.dv, s.dvSize, a);
    FoldDropping(s.own, s.dv, s.dvSize, HeapOf(s), a, next, free);
  }

  lemma ClearFewer(own: map<int, nat>, x: int, w: int)
    requires Clear(own, w)
    ensures Clear(own - {x}, w)
  {
  }

  /** The free chunks are the binned ones and the designated victim. */
  ghost predicate BooksAgree(own: map<int, nat>, cs: ChunkMap, dv: int, dvSize: nat) {
    OwnFree(own, cs) && BinnedBut(own, cs, dv, 0) && VictimOK(cs, dv, dvSize)
  }

  lemma BooksAre(own: map<int, nat>, cs: ChunkMap, dv: int, dvSize: nat)
    ensures BooksAgree(own, cs, dv, dvSize) <==> OwnFree(own, cs) && BinnedBut(own, cs, dv, 0) && VictimOK(cs, dv, dvSize)
  {
  }

  /** The designated victim or the binned chunk behind a stops being one. */
  method DropNext(s: KmState, a: int, free: nat, next: int, ghost m: Mem, ghost h: Heap)
    requires a in s.chunks && next == a + s.chunks[a].size && next in s.chunks && s.chunks[next].size == free
    requires Expands(h, a) && h == HeapOf(s) && h.chunks == s.chunks && Swallowing(s, m, a, free)
    modifies s`mem, s`links, s`own, s`ring, s`shape, s`sbin, s`sbinmap, s`tbin, s`tbinmap, s`dv, s`dvSize
    ensures next + free in h.chunks && Dropped(s.own, s.dv, s.dvSize, h, a)
    ensures if next == old(s.dv) then s.dv == 0 && s.dvSize == 0 else s.dv == old(s.dv) && s.dvSize == old(s.dvSize)
    ensures s.BinsOK() && KeptOutside(old(s.mem), s.mem, old(s.own)) && Clear(s.own, next + free + HEADER)
  {
    hide *;
    BeforeSwallow(s, a, free, next, m);
    UnfoldDropping(s.own, s.dv, s.dvSize, h, a, next, free);
    if next == s.dv {
      KeptSame(s.mem, s.own);
      s.dv := 0;
      s.dvSize := 0;
    } else {
      ClearFewer(s.own, next, next + free + HEADER);
      UnbinChunk(s, next);
    }
  }

  /** What is left after that: the next chunk's PINUSE flag. */
  lemma BeforeFlag(s: KmState, h: Heap, own: map<int, nat>, m: Mem, a: int, free: nat, next: int)
    requires HeapOK(m, h) && OwnFree(own, h.chunks) && 0 !in h.chunks && a != 0
    requires Expands(h, a) && a + h.chunks[a].size == next && h.chunks[next].size == free
    requires KeptOutside(m[a + HEADER := h.chunks[a].size + free + CINUSE + W(m, a + HEADER) % 2], s.mem, own)
    ensures next + free + HEADER in s.mem && s.mem[next + free + HEADER] != 0 && next + free in h.chunks
    ensures var m' := s.mem[next + free + HEADER := OrPinuse(s.mem[next + free + HEADER])];
            && HeapOK(m', Heap(ExpandWhole(h, a).chunks, h.top, h.topSize, h.lo, h.hi, h.hole, 0))
            && InPlace(m, h.chunks, m', ExpandWhole(h, a).chunks, a, h.chunks[a].size + free)
  {
    hide *;
    ExpandsAt(h, a);
    SwallowCommutes(m, h, own, a, s.mem);
    assert a + (h.chunks[a].size + free) == next + free;
  }

  /** The designated victim or the binned chunk behind a is used up. */
  method WholeFromNext(s: KmState, a: int, free: nat, next: int, ghost m: Mem)
    requires Swallowing(s, m, a, free) && a + s.chunks[a].size == next && Expands(HeapOf(s), a)
    requires next in s.chunks && s.chunks[next].size == free
    modifies s`mem, s`chunks, s`links, s`own, s`ring, s`shape, s`sbin, s`sbinmap, s`tbin, s`tbinmap, s`dv, s`dvSize
    ensures Valid(s) && InPlace(m, old(s.chunks), s.mem, s.chunks, a, old(s.chunks)[a].size + free)
    ensures if next == old(s.dv) then s.dv == 0 && s.dvSize == 0 else s.dv == old(s.dv) && s.dvSize == old(s.dvSize)
  {
    hide *;
    ghost var h, own := HeapOf(s), s.own;
    BeforeSwallow(s, a, free, next, m);
    UnfoldDropping(s.own, s.dv, s.dvSize, h, a, next, free);
    DropNext(s, a, free, next, m, h);
    UnfoldDropped(s.own, s.dv, s.dvSize, h, a);
    BooksAre(s.own, ExpandWhole(h, a).chunks, s.dv, s.dvSize);
    BeforeFlag(s, h, own, m, a, free, next);
    var after := next + free;
    if s.mem[after + HEADER] != 0 {
      s.Poke(after + HEADER, OrPinuse(s.mem[after + HEADER]));
    }
    s.chunks := ExpandWhole(h, a).chunks;
    FoldValid(s);
  }

  // ----- try_expand_chunk

  /** Size of the free chunk or top chunk behind a, 0 if a chunk in use follows. */
  ghost function FreeBehind(cs: ChunkMap, top: int, topSize: nat, a: int): nat
    requires a in cs
  {
    var e := a + cs[a].size;
    if e == top then topSize else if e in cs && !cs[e].used then cs[e].size else 0
  }

  /** Growing chunk a to n bytes would split the binned chunk behind it and write the remainder's header on one
      of that chunk's fields. */
  ghost predicate HeaderHits(own: map<int, nat>, cs: ChunkMap, a: int, n: nat)
    requires a in cs && cs[a].size <= n
  {
    var e, d := a + cs[a].size, n - cs[a].size;
    e in own && d + MIN_CHUNK < own[e] && HeaderOnFields(own[e], d)
  }

  /** When that does harm: the field is used.  The prev link of a chunk that is alone in its ring is not. */
  ghost predicate HeaderStrikes(own: map<int, nat>, k: Links, cs: ChunkMap, a: int, n: nat)
    requires a in cs && cs[a].size <= n
  {
    var e, d := a + cs[a].size, n - cs[a].size;
    HeaderHits(own, cs, a, n) && !(d == 8 && Get(k, e, Next) == e)
  }

  lemma GrowPlaces(h: Heap, own: map<int, nat>, a: int, n: nat)
    requires Tiled(h) && h.holeSize == 0 && OwnFree(own, h.chunks) && a in h.chunks && h.chunks[a].used
    requires h.chunks[a].size < n && n % 8 == 0 && n - h.chunks[a].size <= FreeBehind(h.chunks, h.top, h.topSize, a)
    requires !HeaderHits(own, h.chunks, a, n)
    ensures var e, d, free := a + h.chunks[a].size, n - h.chunks[a].size, FreeBehind(h.chunks, h.top, h.topSize, a);
            && Clear(own, a + HEADER) && h.lo <= a + HEADER <= h.hi - 4 && d % 8 == 0 && 0 < d
            && h.lo <= e + d + HEADER <= h.hi - 4 && h.lo <= e + free <= h.hi - 4
            && (d + MIN_CHUNK < free ==> Clear(own, e + d + HEADER) && Clear(own, e + free))
            && (e != h.top ==> Expands(h, a))
  {
    hide Tiled, OwnFree, Clear, Disjoint;
    OwnedSize(own, h.chunks);
    ChunkFacts(h, a);
    UsedNotBinned(own, h.chunks, a);
    ChunkIsClear(h, own, a);
    BoundsOf(h);
    TopIsClear(h, own);
    var e, d := a + h.chunks[a].size, n - h.chunks[a].size;
    if e != h.top {
      ChunkFacts(h, e);
      FooterIsClear(h, own, e);
      if e in own {
        if d + MIN_CHUNK < own[e] {
          MissesAll(h, own, e, d);
        }
      } else {
        ChunkIsClear(h, own, e);
      }
    }
  }

  lemma FoldExpanding(s: KmState, m: Mem, a: int, d: nat, free: nat)
    requires s.BinsOK() && HeapOK(m, HeapOf(s)) && OwnFree(s.own, s.chunks) && BinnedBut(s.own, s.chunks, s.dv, 0)
    requires VictimOK(s.chunks, s.dv, s.dvSize) && SizesAgree(s)
    requires a in s.chunks && s.chunks[a].used && d % 8 == 0 && 0 < d && d + MIN_CHUNK <= free
    requires var e := a + s.chunks[a].size;
             s.mem == m[a + HEADER := s.chunks[a].size + d + CINUSE + W(m, a + HEADER) % 2]
                       [e + d + HEADER := free - d + PINUSE][e + free := free - d]
    ensures Expanding(s, m, a, d, free)
  {
  }

  lemma FoldSwallowing(s: KmState, m: Mem, a: int, free: nat)
    requires s.BinsOK() && HeapOK(m, HeapOf(s)) && OwnFree(s.own, s.chunks) && BinnedBut(s.own, s.chunks, s.dv, 0)
    requires VictimOK(s.chunks, s.dv, s.dvSize) && SizesAgree(s)
    requires a in s.chunks && s.chunks[a].used
    requires s.mem == m[a + HEADER := s.chunks[a].size + free + CINUSE + W(m, a + HEADER) % 2]
    ensures Swallowing(s, m, a, free)
  {
  }

  lemma BeforeExpand(s: KmState, a: int, n: nat)
    requires Valid(s) && a in s.chunks && s.chunks[a].used && s.chunks[a].size < n && n % 8 == 0
    requires n - s.chunks[a].size <= FreeBehind(s.chunks, s.top, s.topSize, a) && !HeaderHits(s.own, s.chunks, a, n)
    ensures var e, d, free := a + s.chunks[a].size, n - s.chunks[a].size, FreeBehind(s.chunks, s.top, s.topSize, a);
            var last := s.heapStart + s.heapSize - 4;
            && Clear(s.own, a + HEADER) && s.heapStart <= a + HEADER <= last && d % 8 == 0 && 0 < d
            && s.heapStart <= e + d + HEADER <= last && s.heapStart <= e + free <= last
            && (d + MIN_CHUNK < free ==> Clear(s.own, e + d + HEADER) && Clear(s.own, e + free))
            && (e != s.top ==> Expands(HeapOf(s), a) && e in s.chunks && s.chunks[e].size == free)
            && (e == s.top ==> free == s.topSize)
            && (e != s.top && e != s.dv && d + MIN_CHUNK < free ==> !HeaderOnFields(free, d))
    ensures s.BinsOK() && HeapOK(s.mem, HeapOf(s)) && OwnFree(s.own, s.chunks) && BinnedBut(s.own, s.chunks, s.dv, 0)
    ensures VictimOK(s.chunks, s.dv, s.dvSize) && SizesAgree(s)
  {
    hide *;
    ValidIsLoose(s);
    UnfoldLoose(s, 0);
    UnfoldCore(s);
    GrowPlaces(HeapOf(s), s.own, a, n);
    NoChunkAtZero(HeapOf(s));
    FreeBehindIs(s.chunks, s.top, s.topSize, a);
    var e, d := a + s.chunks[a].size, n - s.chunks[a].size;
    if e != s.top {
      ExpandsTo(HeapOf(s), a);
      OwnedSize(s.own, s.chunks);
      if e != s.dv {
        FreeIsBinned(s.own, s.chunks, s.dv, e);
        if d + MIN_CHUNK < s.own[e] {
          NoHitIs(s.own, s.chunks, a, n);
        }
      }
    }
  }

  lemma ExpandsTo(h: Heap, a: int)
    requires Expands(h, a)
    ensures a in h.chunks && a + h.chunks[a].size in h.chunks && !h.chunks[a + h.chunks[a].size].used
  {
  }

  lemma FreeBehindIs(cs: ChunkMap, top: int, topSize: nat, a: int)
    requires a in cs
    ensures var e, free := a + cs[a].size, FreeBehind(cs, top, topSize, a);
            (e == top ==> free == topSize) && (e != top && e in cs && !cs[e].used ==> free == cs[e].size)
  {
  }

  lemma NoHitIs(own: map<int, nat>, cs: ChunkMap, a: int, n: nat)
    requires a in cs && cs[a].size <= n && !HeaderHits(own, cs, a, n) && a + cs[a].size in own
    ensures n - cs[a].size + MIN_CHUNK < own[a + cs[a].size] ==> !HeaderOnFields(own[a + cs[a].size], n - cs[a].size)
  {
  }

  lemma OwnedSize(own: map<int, nat>, cs: ChunkMap)
    requires OwnFree(own, cs)
    ensures forall x :: x in own ==> x in cs && own[x] == cs[x].size
  {
  }

  lemma BehindWord(s: KmState, a: int)
    requires Valid(s) && a in s.chunks
    ensures a + HEADER in s.mem && InUse(s.mem[a + HEADER]) == s.chunks[a].used && SizeOf(s.mem[a + HEADER]) == s.chunks[a].size
    ensures W(s.mem, a + HEADER) == s.mem[a + HEADER]
    ensures var e := a + s.chunks[a].size;
            && e + HEADER in s.mem && (e == s.top || e in s.chunks)
            && (InUse(s.mem[e + HEADER]) ==> FreeBehind(s.chunks, s.top, s.topSize, a) == 0)
            && (!InUse(s.mem[e + HEADER]) ==> SizeOf(s.mem[e + HEADER]) == FreeBehind(s.chunks, s.top, s.topSize, a))
  {
    hide Valid, Loose;
    ValidIsLoose(s);
    ChunkWords(s, 0, a);
  }

  /** The block at a grew to n bytes where it is: its size, and the free lists and the designated victim after that.  If more than
      16 free bytes are left behind it they stay what they were cut from: the top chunk, the designated victim or a binned chunk.
      Otherwise the block has them too, and if they were the designated victim that is gone. */
  ghost predicate Expanded(cs: ChunkMap, top: int, topSize: nat, dv: int, dvSize: nat, a: int, n: nat, size: nat,
                           own': map<int, nat>, dv': int, dvSize': nat) {
    && a in cs && cs[a].size <= n
    && var e, free, d := a + cs[a].size, FreeBehind(cs, top, topSize, a), n - cs[a].size;
    if free - d > MIN_CHUNK then
      && size == n
      && if e != top && e == dv then dv' == e + d && d + dvSize' == free
         else dv' == dv && dvSize' == dvSize && (e != top ==> e + d in own' && d + own'[e + d] == free)
    else
      && size == cs[a].size + free
      && if e != top && e == dv then dv' == 0 && dvSize' == 0 else dv' == dv && dvSize' == dvSize
  }

  lemma ExpandedPart(cs: ChunkMap, top: int, topSize: nat, dv: int, dvSize: nat, a: int, d: nat, own': map<int, nat>,
                     dv': int, dvSize': nat)
    requires a in cs && FreeBehind(cs, top, topSize, a) - d > MIN_CHUNK
    requires var e := a + cs[a].size;
             if e != top && e == dv then dv' == e + d && d + dvSize' == FreeBehind(cs, top, topSize, a)
             else dv' == dv && dvSize' == dvSize
                  && (e != top ==> e + d in own' && d + own'[e + d] == FreeBehind(cs, top, topSize, a))
    ensures Expanded(cs, top, topSize, dv, dvSize, a, cs[a].size + d, cs[a].size + d, own', dv', dvSize')
  {
    hide FreeBehind;
  }

  lemma ExpandedWhole(cs: ChunkMap, top: int, topSize: nat, dv: int, dvSize: nat, a: int, n: nat, own': map<int, nat>,
                      dv': int, dvSize': nat)
    requires a in cs && cs[a].size <= n && FreeBehind(cs, top, topSize, a) + cs[a].size - n <= MIN_CHUNK
    requires if a + cs[a].size != top && a + cs[a].size == dv then dv' == 0 && dvSize' == 0 else dv' == dv && dvSize' == dvSize
    ensures Expanded(cs, top, topSize, dv, dvSize, a, n, cs[a].size + FreeBehind(cs, top, topSize, a), own', dv', dvSize')
  {
    hide FreeBehind;
  }

  /** The block grows by d bytes and a remainder is split off. */
  method ExpandSplitting(s: KmState, chunk: int, d: nat, free: nat)
    requires Valid(s) && chunk in s.chunks && s.chunks[chunk].used
    requires d > 0 && d % 8 == 0 && free == FreeBehind(s.chunks, s.top, s.topSize, chunk) && MIN_CHUNK < free - d
    requires !HeaderHits(s.own, s.chunks, chunk, s.chunks[chunk].size + d)
    modifies s`mem, s`chunks, s`links, s`own, s`ring, s`shape, s`sbin, s`sbinmap, s`tbin, s`tbinmap, s`dv, s`dvSize
    modifies s`top, s`topSize
    ensures Valid(s) && InPlace(old(s.mem), old(s.chunks), s.mem, s.chunks, chunk, old(s.chunks)[chunk].size + d)
    ensures if old(chunk + s.chunks[chunk].size == s.top) then s.top == old(s.top) + d && s.topSize == free - d
            else s.top == old(s.top) && s.topSize == old(s.topSize)
    ensures Expanded(old(s.chunks), old(s.top), old(s.topSize), old(s.dv), old(s.dvSize), chunk, old(s.chunks)[chunk].size + d,
                     old(s.chunks)[chunk].size + d, s.own, s.dv, s.dvSize)
  {
    hide *;
    ghost var m := s.mem;
    FreeBehindIs(s.chunks, s.top, s.topSize, chunk);
    BehindWord(s, chunk);
    SplitSizes(s.chunks[chunk].size, d, free);
    SizeAligned(s, chunk);
    BeforeExpand(s, chunk, s.chunks[chunk].size + d);
    var size := SizeOf(s.mem[chunk + HEADER]);
    var next := chunk + size;
    s.Poke(chunk + HEADER, size + d + CINUSE + s.mem[chunk + HEADER] % 2);
    s.Poke(next + d + HEADER, free - d + PINUSE);
    s.Poke(next + free, free - d);
    FoldExpanding(s, m, chunk, d, free);
    if next == s.top {
      PartFromTop(s, chunk, d, m);
    } else if next == s.dv {
      PartFromVictim(s, chunk, d, free, m);
    } else {
      PartFromBin(s, chunk, d, free, next, m);
    }
    ExpandedPart(old(s.chunks), old(s.top), old(s.topSize), old(s.dv), old(s.dvSize), chunk, d, s.own, s.dv, s.dvSize);
  }

  /** The words are written although a field is in the way: the lists are as before but for that field. */
  lemma SpoiledAfter(m: Mem, own: map<int, nat>, k: Links, lo: int, hi: int, a: int, size: nat, d: nat, free: nat)
    requires Stored(m, own, k, lo, hi) && d <= free && a + size in own && own[a + size] == free && d % 8 == 0 && 0 < d
    requires HeaderOnFields(free, d) && Clear(own, a + HEADER) && Clear(own, a + size + free)
    requires lo <= a + HEADER <= hi - 4 && lo <= a + size + free <= hi - 4
    ensures var m', e := ExpandPartWords(m, a, size, d, free), a + size;
            && Mapped(m', lo, hi) && SizeOK(free) && Placed(e, free, lo, hi)
            && (d == 24 ==> FreeHeaderOf(m', e, free) && W(m', e + INDEX) == free - d + PINUSE)
            && (d != 24 ==> Stored(m', own, Put(k, e, SpoiledField(d), free - d + PINUSE), lo, hi))
  {
    hide *;
    var e := a + size;
    var h := size + d + CINUSE + W(m, a + HEADER) % 2;
    var m1 := m[a + HEADER := h];
    StoreElsewhere(m, own, k, lo, hi, a + HEADER, h);
    StoredMapped(m1, own, k, lo, hi, e);
    WordsIs(m, a, size, d, free);
    if d == 24 {
      SpoiledIndex(m1, e, free, d, lo, hi);
    } else {
      SpoiledLink(m1, own, k, lo, hi, e, free, d);
      StoredMapped(ExpandPartWords(m, a, size, d, free), own, Put(k, e, SpoiledField(d), free - d + PINUSE), lo, hi, e);
    }
  }

  lemma SpoiledIndex(m: Mem, e: int, free: nat, d: nat, lo: int, hi: int)
    requires FreeHeader(m, e, free) && Mapped(m, lo, hi) && d == 24 && d <= free && HeaderOnFields(free, d)
    ensures var m' := m[e + d + HEADER := free - d + PINUSE][e + free := free - d];
            Mapped(m', lo, hi) && FreeHeaderOf(m', e, free) && W(m', e + INDEX) == free - d + PINUSE
  {
  }

  lemma FieldAt(e: int, free: nat, d: nat)
    requires d % 8 == 0 && 0 < d && d != 24 && HeaderOnFields(free, d)
    ensures e + d + HEADER == e + Offset(SpoiledField(d)) && HeapState.Has(free, SpoiledField(d))
  {
  }

  lemma SpoiledLink(m: Mem, own: map<int, nat>, k: Links, lo: int, hi: int, e: int, free: nat, d: nat)
    requires Stored(m, own, k, lo, hi) && e in own && own[e] == free && d % 8 == 0 && 0 < d <= free && d != 24
    requires HeaderOnFields(free, d) && Clear(own, e + free)
    ensures Stored(m[e + d + HEADER := free - d + PINUSE][e + free := free - d], own,
                   Put(k, e, SpoiledField(d), free - d + PINUSE), lo, hi)
  {
    hide *;
    var f, v := SpoiledField(d), free - d + PINUSE;
    FieldAt(e, free, d);
    StoreLink(m, own, k, lo, hi, e, f, v);
    StoreElsewhere(m[e + Offset(f) := v], own, Put(k, e, f, v), lo, hi, e + free, free - d);
  }

  lemma StoredMapped(m: Mem, own: map<int, nat>, k: Links, lo: int, hi: int, x: int)
    requires Stored(m, own, k, lo, hi) && x in own
    ensures Mapped(m, lo, hi) && FreeHeader(m, x, own[x]) && SizeOK(own[x]) && Placed(x, own[x], lo, hi)
  {
  }

  /** What try_expand_chunk's three words do when the middle one falls on a field of the binned chunk behind. */
  lemma BeforeSpoil(s: KmState, a: int, d: nat)
    requires Valid(s) && a in s.chunks && s.chunks[a].used && d > 0 && d % 8 == 0
    requires HeaderHits(s.own, s.chunks, a, s.chunks[a].size + d)
    ensures Spoilable(HeapOf(s), s.own, s.dv, a, d)
    ensures HeapOf(s) == Heap(s.chunks, s.top, s.topSize, s.heapStart, s.heapStart + s.heapSize, 0, 0)
    ensures forall y :: y in s.own ==> y % 8 == 0
    ensures HeapOK(s.mem, HeapOf(s)) && OwnFree(s.own, s.chunks) && BinnedBut(s.own, s.chunks, s.dv, 0)
    ensures VictimOK(s.chunks, s.dv, s.dvSize) && SizesAgree(s)
    ensures Stored(s.mem, s.own, s.links, s.heapStart, s.heapStart + s.heapSize)
    ensures ListsOK(s.own, s.links, s.ring, s.shape) && HeadsOK(s.ring, s.shape, s.sbin, s.tbin, s.sbinmap, s.tbinmap)
  {
    hide *;
    ValidIsLoose(s);
    UnfoldLoose(s, 0);
    UnfoldCore(s);
    UnfoldHeads(s);
    HeapIs(s, s.mem);
    SpoilPlaces(HeapOf(s), s.own, s.dv, a, d);
    forall y | y in s.own
      ensures y % 8 == 0
    {
      BinnedAligned(s, y);
    }
  }

  /** A binned chunk is behind a, and the new header falls on its fields. */
  ghost predicate Spoilable(h: Heap, own: map<int, nat>, dv: int, a: int, d: nat) {
    && a in h.chunks && d % 8 == 0 && 0 < d
    && var size, e := h.chunks[a].size, a + h.chunks[a].size;
    && e in own && e in h.chunks && e != dv && e != h.top && Expands(h, a)
    && var free := h.chunks[e].size;
    && own[e] == free && FreeBehind(h.chunks, h.top, h.topSize, a) == free && d + MIN_CHUNK < free
    && HeaderOnFields(free, d) && (free - d + PINUSE) % 8 == 1 && free - d + PINUSE > 8
    && (d == 24 ==> free - d + PINUSE > NBINS)
    && Clear(own, a + HEADER) && Clear(own, e + free)
    && h.lo <= a + HEADER <= h.hi - 4 && h.lo <= e + free <= h.hi - 4
  }

  lemma SpoilableIs(h: Heap, own: map<int, nat>, dv: int, a: int, d: nat)
    requires Spoilable(h, own, dv, a, d)
    ensures var size, e := h.chunks[a].size, a + h.chunks[a].size;
            && e in own && e in h.chunks && e != dv && e != h.top && Expands(h, a)
            && var free := h.chunks[e].size;
            && own[e] == free && FreeBehind(h.chunks, h.top, h.topSize, a) == free && d + MIN_CHUNK < free
            && HeaderOnFields(free, d) && (free - d + PINUSE) % 8 == 1 && free - d + PINUSE > 8
            && (d == 24 ==> free - d + PINUSE > NBINS)
            && Clear(own, a + HEADER) && Clear(own, e + free)
            && h.lo <= a + HEADER <= h.hi - 4 && h.lo <= e + free <= h.hi - 4
  {
  }

  lemma SpoilPlaces(h: Heap, own: map<int, nat>, dv: int, a: int, d: nat)
    requires Tiled(h) && h.holeSize == 0 && OwnFree(own, h.chunks) && BinnedBut(own, h.chunks, dv, 0)
    requires a in h.chunks && h.chunks[a].used && d > 0 && d % 8 == 0 && HeaderHits(own, h.chunks, a, h.chunks[a].size + d)
    ensures Spoilable(h, own, dv, a, d)
  {
    hide Tiled, OwnFree, Clear, Disjoint;
    var e := a + h.chunks[a].size;
    OwnedSize(own, h.chunks);
    ChunkFacts(h, a);
    ChunkFacts(h, e);
    UsedNotBinned(own, h.chunks, a);
    ChunkIsClear(h, own, a);
    FooterIsClear(h, own, e);
    AllBelowTop(h);
  }

  /** The same when the remainder's header falls on a field of the chunk behind, which is still in its bin: the code
      does not look, it writes the words and goes on. */
  method ExpandSpoiling(s: KmState, chunk: int, d: nat, free: nat) returns (fault: bool)
    requires Valid(s) && chunk in s.chunks && s.chunks[chunk].used
    requires d > 0 && d % 8 == 0 && free == FreeBehind(s.chunks, s.top, s.topSize, chunk)
    requires HeaderHits(s.own, s.chunks, chunk, s.chunks[chunk].size + d)
    modifies s`mem, s`chunks, s`links, s`own, s`ring, s`shape, s`sbin, s`sbinmap, s`tbin, s`tbinmap
    ensures fault <==> HeaderStrikes(old(s.own), old(s.links), old(s.chunks), chunk, old(s.chunks)[chunk].size + d)
    ensures !fault ==> Valid(s) && InPlace(old(s.mem), old(s.chunks), s.mem, s.chunks, chunk, old(s.chunks)[chunk].size + d)
    ensures !fault ==> chunk + old(s.chunks)[chunk].size + d in s.own && d + s.own[chunk + old(s.chunks)[chunk].size + d] == free
  {
    hide *;
    ghost var m, k0 := s.mem, s.links;
    BehindWord(s, chunk);
    BeforeSpoil(s, chunk, d);
    SpoilableIs(HeapOf(s), s.own, s.dv, chunk, d);
    BelowFree(d, free);
    StrikesIs(s.own, s.links, s.chunks, chunk, d);
    var size := SizeOf(s.mem[chunk + HEADER]);
    var next := chunk + size;
    SpoiledAfter(m, s.own, k0, s.heapStart, s.heapStart + s.heapSize, chunk, size, d, free);
    WordsIs(m, chunk, size, d, free);
    s.mem := s.mem[chunk + HEADER := size + d + CINUSE + s.mem[chunk + HEADER] % 2];
    s.mem := s.mem[next + d + HEADER := free - d + PINUSE];
    s.mem := s.mem[next + free := free - d];
    if d != 24 {
      s.links := Put(k0, next, SpoiledField(d), free - d + PINUSE);
    }
    FoldSpoiled(s, next, d, free - d + PINUSE, k0);
    fault := PartFromSpoiled(s, chunk, d, free, next, m, k0);
  }

  lemma WordsIs(m: Mem, a: int, size: nat, d: nat, free: nat)
    requires d <= free
    ensures ExpandPartWords(m, a, size, d, free) ==
            m[a + HEADER := size + d + CINUSE + W(m, a + HEADER) % 2][a + size + d + HEADER := free - d + PINUSE][a + size + free := free - d]
  {
  }

  lemma FoldSpoiled(s: KmState, x: int, diff: nat, v: int, k0: Links)
    requires ListsOK(s.own, k0, s.ring, s.shape) && HeadsOK(s.ring, s.shape, s.sbin, s.tbin, s.sbinmap, s.tbinmap)
    requires x in s.own && HeaderOnFields(s.own[x], diff) && diff % 8 == 0 && diff > 0 && v % 8 == 1 && v > 8
    requires (diff == 24 ==> v > NBINS) && SizeOK(s.own[x]) && Placed(x, s.own[x], s.heapStart, s.heapStart + s.heapSize)
    requires (forall y :: y in s.own ==> y % 8 == 0) && Mapped(s.mem, s.heapStart, s.heapStart + s.heapSize)
    requires diff == 24 ==> FreeHeaderOf(s.mem, x, s.own[x]) && W(s.mem, x + INDEX) == v
    requires diff != 24 ==> Stored(s.mem, s.own, s.links, s.heapStart, s.heapStart + s.heapSize)
                            && s.links == Put(k0, x, SpoiledField(diff), v)
    ensures SpoiledBy(s, x, diff, v, k0)
  {
  }

  lemma StrikesIs(own: map<int, nat>, k: Links, cs: ChunkMap, a: int, d: nat)
    requires a in cs && HeaderHits(own, cs, a, cs[a].size + d)
    ensures HeaderStrikes(own, k, cs, a, cs[a].size + d) <==> !(d == 8 && Get(k, a + cs[a].size, Next) == a + cs[a].size)
  {
  }

  lemma SplitSizes(size: nat, d: nat, free: nat)
    requires 0 < d && MIN_CHUNK < free - d
    ensures d + MIN_CHUNK < free
    ensures size < size + d && d <= free && size + d - size == d && d + MIN_CHUNK <= free
  {
  }

  lemma SizeAligned(s: KmState, a: int)
    requires Valid(s) && a in s.chunks
    ensures forall d :: d % 8 == 0 ==> (s.chunks[a].size + d) % 8 == 0
  {
    hide *;
    SizeOfChunk(s, a);
  }

  /** The block takes all the free bytes behind it. */
  method ExpandUsingUp(s: KmState, chunk: int, free: nat, ghost n: nat)
    requires Valid(s) && chunk in s.chunks && s.chunks[chunk].used && s.chunks[chunk].size < n && n % 8 == 0
    requires free == FreeBehind(s.chunks, s.top, s.topSize, chunk)
    requires n <= s.chunks[chunk].size + free <= n + MIN_CHUNK
    modifies s`mem, s`chunks, s`links, s`own, s`ring, s`shape, s`sbin, s`sbinmap, s`tbin, s`tbinmap, s`dv, s`dvSize
    modifies s`top, s`topSize
    ensures Valid(s) && InPlace(old(s.mem), old(s.chunks), s.mem, s.chunks, chunk, old(s.chunks)[chunk].size + free)
    ensures if old(chunk + s.chunks[chunk].size == s.top) then s.top == old(s.top) + free && s.topSize == 0
            else s.top == old(s.top) && s.topSize == old(s.topSize)
    ensures Expanded(old(s.chunks), old(s.top), old(s.topSize), old(s.dv), old(s.dvSize), chunk, n,
                     old(s.chunks)[chunk].size + free, s.own, s.dv, s.dvSize)
  {
    hide *;
    ghost var m := s.mem;
    FreeBehindIs(s.chunks, s.top, s.topSize, chunk);
    BehindWord(s, chunk);
    NoHit(s, chunk, n, free);
    BeforeExpand(s, chunk, n);
    var size := SizeOf(s.mem[chunk + HEADER]);
    var next := chunk + size;
    s.Poke(chunk + HEADER, size + free + CINUSE + s.mem[chunk + HEADER] % 2);
    FoldSwallowing(s, m, chunk, free);
    if next == s.top {
      WholeFromTop(s, chunk, m);
    } else {
      WholeFromNext(s, chunk, free, next, m);
    }
    ExpandedWhole(old(s.chunks), old(s.top), old(s.topSize), old(s.dv), old(s.dvSize), chunk, n, s.own, s.dv, s.dvSize);
  }

  lemma NoHit(s: KmState, a: int, n: nat, free: nat)
    requires Valid(s) && a in s.chunks && s.chunks[a].size < n && n <= s.chunks[a].size + free <= n + MIN_CHUNK
    requires free == FreeBehind(s.chunks, s.top, s.topSize, a)
    ensures n - s.chunks[a].size <= free && !HeaderHits(s.own, s.chunks, a, n)
  {
    AllBelowTop(HeapOf(s));
    OwnedSize(s.own, s.chunks);
    hide Valid;
  }

  /** The heap's end after the block at a has grown to n bytes where it is. */
  ghost function GrownEnd(cs: ChunkMap, e: End, a: int, n: nat): End {
    if a in cs && cs[a].size <= n <= cs[a].size + e.topSize && a + cs[a].size == e.top then
      var d := n - cs[a].size;
      if e.topSize - d > MIN_CHUNK then e.(top := e.top + d, topSize := e.topSize - d) else e.(top := e.top + e.topSize, topSize := 0)
    else e
  }

  lemma GrownEndIs(cs: ChunkMap, e: End, a: int, n: nat)
    requires a in cs && cs[a].size < n <= cs[a].size + FreeBehind(cs, e.top, e.topSize, a)
    ensures var d, free := n - cs[a].size, FreeBehind(cs, e.top, e.topSize, a);
            GrownEnd(cs, e, a, n) ==
              if a + cs[a].size != e.top then e
              else if free - d > MIN_CHUNK then e.(top := e.top + d, topSize := free - d)
              else e.(top := e.top + free, topSize := 0)
  {
  }

  /** try_expand_chunk: the block grows into the free chunk or top chunk behind it if that is large enough.  It goes
      wrong, following a header as if it were a link or an index, exactly when HeaderStrikes. */
  method TryExpandChunk(s: KmState, chunk: int, newSize: nat) returns (ok: bool, fault: bool)
    requires Valid(s) && chunk in s.chunks && s.chunks[chunk].used && s.chunks[chunk].size < newSize && newSize % 8 == 0
    modifies s`mem, s`chunks, s`links, s`own, s`ring, s`shape, s`sbin, s`sbinmap, s`tbin, s`tbinmap, s`dv, s`dvSize
    modifies s`top, s`topSize
    ensures fault <==> HeaderStrikes(old(s.own), old(s.links), old(s.chunks), chunk, newSize)
    ensures fault ==> !ok
    ensures !fault ==> Valid(s)
    ensures !fault ==>
              (ok <==> newSize <= old(s.chunks)[chunk].size + old(FreeBehind(s.chunks, s.top, s.topSize, chunk)))
    ensures ok ==> chunk in s.chunks && newSize <= s.chunks[chunk].size <= newSize + MIN_CHUNK
    ensures ok ==> InPlace(old(s.mem), old(s.chunks), s.mem, s.chunks, chunk, s.chunks[chunk].size)
    ensures !ok && !fault ==> unchanged(s)
    ensures ok ==> EndOf(s) == GrownEnd(old(s.chunks), old(EndOf(s)), chunk, newSize)
    ensures ok ==> Expanded(old(s.chunks), old(s.top), old(s.topSize), old(s.dv), old(s.dvSize), chunk, newSize,
                            SizeAt(s.chunks, chunk), s.own, s.dv, s.dvSize)
  {
    hide *;
    EndIs(s);
    if newSize <= s.chunks[chunk].size + FreeBehind(s.chunks, s.top, s.topSize, chunk) {
      GrownEndIs(s.chunks, EndOf(s), chunk, newSize);
    }
    BehindWord(s, chunk);
    HitsOnlyFree(s, chunk, newSize);
    if !InUse(s.mem[chunk + HEADER]) || newSize < SizeOf(s.mem[chunk + HEADER]) {
      assert false;
    }
    var diff := newSize - SizeOf(s.mem[chunk + HEADER]);
    var next := chunk + SizeOf(s.mem[chunk + HEADER]);
    ok, fault := false, false;
    if !InUse(s.mem[next + HEADER]) && SizeOf(s.mem[next + HEADER]) >= diff {
      var freeSize := SizeOf(s.mem[next + HEADER]) - diff;
      DiffAligned(s, chunk, newSize);
      if freeSize > MIN_CHUNK && next != s.top && next != s.dv && HeaderOnFields(freeSize + diff, diff) {
        // the same statements as in the next case
        fault := ExpandSpoiling(s, chunk, diff, freeSize + diff);
        if fault {
          return;
        }
        ExpandedPart(old(s.chunks), s.top, s.topSize, s.dv, s.dvSize, chunk, diff, s.own, s.dv, s.dvSize);
      } else if freeSize > MIN_CHUNK {
        ExpandSplitting(s, chunk, diff, freeSize + diff);
      } else {
        ExpandUsingUp(s, chunk, freeSize + diff, newSize);
      }
      InPlaceSize(old(s.mem), old(s.chunks), s.mem, s.chunks, chunk, newSize + if freeSize > MIN_CHUNK then 0 else freeSize);
      EndIs(s);
      SizeAtIs(s.chunks, chunk);
      ok := true;
    }
  }

  /** The header falls on a field exactly when a binned chunk behind is split and too little of it is used. */
  lemma HitsOnlyFree(s: KmState, a: int, n: nat)
    requires Valid(s) && a in s.chunks && s.chunks[a].size < n
    ensures var e, d, free := a + s.chunks[a].size, n - s.chunks[a].size, FreeBehind(s.chunks, s.top, s.topSize, a);
            HeaderHits(s.own, s.chunks, a, n) <==>
              && e + HEADER in s.mem && !InUse(s.mem[e + HEADER]) && free >= d && free - d > MIN_CHUNK && e != s.top && e != s.dv
              && HeaderOnFields(free, d)
    ensures HeaderStrikes(s.own, s.links, s.chunks, a, n) ==> HeaderHits(s.own, s.chunks, a, n)
  {
    hide Valid, Loose, HeaderOnFields, InUse, SizeOf, PrevInUse;
    ValidIsLoose(s);
    ChunkWords(s, 0, a);
    LooseFacts(s, 0);
    BooksOf(s);
    OwnedSize(s.own, s.chunks);
  }

  lemma BooksOf(s: KmState)
    requires Valid(s)
    ensures BinnedBut(s.own, s.chunks, s.dv, 0) && 0 !in s.chunks && s.top !in s.chunks
  {
    NoChunkAtZero(HeapOf(s));
    AllBelowTop(HeapOf(s));
    hide HeapOK;
  }

  lemma DiffAligned(s: KmState, a: int, n: nat)
    requires Valid(s) && a in s.chunks && s.chunks[a].size < n && n % 8 == 0
    ensures (n - s.chunks[a].size) % 8 == 0 && n <= n + MIN_CHUNK
  {
    hide *;
    SizeOfChunk(s, a);
  }

  lemma InPlaceSize(m: Mem, cs: ChunkMap, m': Mem, cs': ChunkMap, a: int, n: nat)
    requires InPlace(m, cs, m', cs', a, n)
    ensures a in cs' && cs'[a].size == n
  {
  }

  // ----- krealloc, shrinking

  lemma BeforeShrink(s: KmState, a: int, n: nat)
    requires Valid(s) && a in s.chunks && s.chunks[a].used && MIN_CHUNK <= n < s.chunks[a].size && n % 8 == 0
    ensures a + HEADER in s.mem && W(s.mem, a + HEADER) == s.mem[a + HEADER] && s.BinsOK()
    ensures Clear(s.own, a + HEADER) && s.heapStart <= a + HEADER <= s.heapStart + s.heapSize - 4
    ensures var h, m' := Shorten(HeapOf(s), a, n), s.mem[a + HEADER := n + CINUSE + s.mem[a + HEADER] % 2];
            && HeapOK(m', Heap(h.chunks, s.top, s.topSize, s.heapStart, s.heapStart + s.heapSize, a + n, s.chunks[a].size - n))
            && OwnFree(s.own, h.chunks) && BinnedBut(s.own, h.chunks, s.dv, 0) && VictimOK(h.chunks, s.dv, s.dvSize)
            && InPlace(s.mem, s.chunks, m', h.chunks, a, n) && a + s.chunks[a].size == a + n + (s.chunks[a].size - n)
    ensures SizesAgree(s) && HeapOf(s).chunks == s.chunks && 0 !in s.chunks && a != 0
  {
    hide *;
    BehindWord(s, a);
    ValidIsLoose(s);
    UnfoldLoose(s, 0);
    UnfoldCore(s);
    ShortenIs(HeapOf(s), a, n);
    ShortenOK(s.mem, HeapOf(s), a, n);
    LiveShorten(HeapOf(s), a, n);
    UsedNotBinned(s.own, s.chunks, a);
    ChunkIsClear(HeapOf(s), s.own, a);
    NoChunkAtZero(HeapOf(s));
    ResizedBooks(s.own, s.chunks, s.dv, s.dvSize, a, n);
    InPlaceShorter(s.mem, s.chunks, s.mem[a + HEADER := n + CINUSE + s.mem[a + HEADER] % 2], Shorten(HeapOf(s), a, n).chunks, a, n);
  }

  lemma ShortenIs(h: Heap, a: int, n: nat)
    requires a in h.chunks && h.chunks[a].used && h.holeSize == 0 && MIN_CHUNK <= n < h.chunks[a].size && n % 8 == 0
    ensures Shortens(h, a, n) && n >= 16 && HEADER == 4
    ensures Shorten(h, a, n) ==
              Heap(h.chunks[a := h.chunks[a].(size := n)], h.top, h.topSize, h.lo, h.hi, a + n, h.chunks[a].size - n)
  {
  }

  lemma InPlaceShorter(m: Mem, cs: ChunkMap, m': Mem, cs': ChunkMap, a: int, n: nat)
    requires a in cs && n < cs[a].size && a in cs' && cs'[a].size == n && Live(cs') == Live(cs)[a := n]
    requires LiveKept(m, cs, m', cs', a) && BlockKept(m, m', a, n)
    ensures InPlace(m, cs, m', cs', a, n)
  {
  }

  /** The block keeps n bytes; the rest is freed. */
  method ShrinkBlock(s: KmState, chunk: int, n: nat, next: int)
    requires Valid(s) && chunk in s.chunks && s.chunks[chunk].used && n % 8 == 0
    requires MIN_CHUNK <= n < s.chunks[chunk].size && next == chunk + s.chunks[chunk].size
    requires s.chunks[chunk].size - n >= MIN_CHUNK || next == s.top || (next in s.chunks && !s.chunks[next].used)
    modifies s`mem, s`chunks, s`links, s`own, s`ring, s`shape, s`sbin, s`sbinmap, s`tbin, s`tbinmap, s`dv, s`dvSize
    modifies s`top, s`topSize, s`heapSize, s.pager
    ensures Valid(s) && InPlace(old(s.mem), old(s.chunks), s.mem, s.chunks, chunk, n)
    ensures next == old(s.top) ==> s.top == chunk + n
    ensures next == old(s.top) && next - s.top + old(s.topSize) <= 4096 ==> s.topSize == next - s.top + old(s.topSize)
    ensures EndOf(s) == if next == old(s.top) then JoinedEnd(old(EndOf(s)), chunk + n) else old(EndOf(s))
    ensures Merged(old(s.chunks), old(s.top), old(s.dv), old(s.dvSize), chunk + n, old(s.chunks)[chunk].size - n,
                   s.own, s.dv, s.dvSize)
  {
    hide *;
    ghost var m, cs, size := s.mem, s.chunks, s.chunks[chunk].size;
    BeforeShrink(s, chunk, n);
    NextKept(s.chunks, chunk, n, next, HeapOf(s));
    BehindWord(s, chunk);
    var diff := SizeOf(s.mem[chunk + HEADER]) - n;
    s.Poke(chunk + HEADER, n + CINUSE + s.mem[chunk + HEADER] % 2);
    s.chunks := Shorten(HeapOf(s), chunk, n).chunks;
    var rest := chunk + n;
    FoldOpened(s, rest, diff);
    ghost var m1, cs1 := s.mem, s.chunks;
    MergeFreeChunks(s, rest, diff, next);
    MergedSame(cs, cs1, old(s.top), old(s.dv), old(s.dvSize), rest, diff, s.own, s.dv, s.dvSize);
    InPlaceThen(m, cs, m1, cs1, s.mem, s.chunks, chunk, n);
  }

  lemma NextKept(cs: ChunkMap, a: int, n: nat, next: int, h: Heap)
    requires h.chunks == cs && a in cs && n <= cs[a].size && next != a
    ensures next in Shorten(h, a, n).chunks <==> next in cs
    ensures next in cs ==> Shorten(h, a, n).chunks[next] == cs[next]
  {
  }

  lemma InPlaceThen(m: Mem, cs: ChunkMap, m1: Mem, cs1: ChunkMap, m2: Mem, cs2: ChunkMap, a: int, n: nat)
    requires InPlace(m, cs, m1, cs1, a, n) && LiveKept(m1, cs1, m2, cs2, 0) && Live(cs2) == Live(cs1)
    requires a in cs && cs[a].used && a != 0 && 0 !in cs
    ensures InPlace(m, cs, m2, cs2, a, n)
  {
    assert a in Live(cs1) && cs1[a].used && a in Live(cs2) && cs2[a].size == n;
    assert BlockKept(m1, m2, a, n);
    forall b | b in cs && cs[b].used && b != a
      ensures b in cs2 && cs2[b].used && cs2[b].size == cs[b].size && BlockKept(m, m2, b, cs[b].size)
    {
      assert BlockKept(m, m1, b, cs[b].size);
      assert BlockKept(m1, m2, b, cs1[b].size);
    }
  }

  // ----- krealloc, moving

  /** Only words of the block of chunk b have been written. */
  ghost predicate BlockWritten(m: Mem, m': Mem, b: int, size: nat) {
    m'.Keys == m.Keys && forall w :: w in m && (w < b + PAYLOAD || b + size < w) ==> m'[w] == m[w]
  }

  lemma WriteBlock(m: Mem, m': Mem, h: Heap, own: map<int, nat>, k: Links, b: int)
    requires HeapOK(m, h) && OwnFree(own, h.chunks) && Stored(m, own, k, h.lo, h.hi) && h.holeSize == 0
    requires b in h.chunks && h.chunks[b].used && BlockWritten(m, m', b, h.chunks[b].size)
    ensures HeapOK(m', h) && Stored(m', own, k, h.lo, h.hi) && LiveKept(m, h.chunks, m', h.chunks, b)
  {
    hide Tiled, Disjoint, ChunkAt, Joined, ListsOK;
    var size := h.chunks[b].size;
    ChunkFacts(h, b);
    BoundsOf(h);
    forall c | c in h.chunks
      ensures ChunkAt(m', h, c)
    {
      WriteBlockChunk(m, m', h, b, c);
    }
    forall x, w | x in own && x + HEADER <= w < x + FieldsEnd(own[x])
      ensures W(m', w) == W(m, w)
    {
      ApartChunks(h, b, x);
    }
    StoredFrame(m, m', own, k, h.lo, h.hi);
    forall c | c in h.chunks && h.chunks[c].used && c != b
      ensures BlockKept(m, m', c, h.chunks[c].size)
    {
      ApartChunks(h, b, c);
    }
  }

  lemma WriteBlockChunk(m: Mem, m': Mem, h: Heap, b: int, c: int)
    requires HeapOK(m, h) && h.holeSize == 0 && b in h.chunks && h.chunks[b].used && c in h.chunks
    requires BlockWritten(m, m', b, h.chunks[b].size)
    ensures ChunkAt(m', h, c)
  {
    hide Tiled, Disjoint, Written;
    WrittenChunk(m, h, c);
    ChunkFacts(h, b);
    ChunkFacts(h, c);
    if c != b {
      ApartChunks(h, b, c);
    }
    if !h.chunks[c].used {
      FreeHasNext(h, c);
      var e := c + h.chunks[c].size;
      if e != b {
        ApartChunks(h, b, e);
      }
      NextOf(h, b);
    }
    if !h.chunks[c].pinuse {
      PrevChunk(m, h, c);
      NextOf(h, b);
    }
  }

  /** The first n bytes from src on have been copied to dst. */
  ghost predicate Copied(m: Mem, src: int, m': Mem, dst: int, n: int) {
    forall i :: 0 <= i <= n - 4 && i % 4 == 0 ==> W(m', dst + i) == W(m, src + i)
  }

  /** kmemcpy, a word at a time, between regions that do not overlap. */
  method CopyWords(s: KmState, dst: int, src: int, n: nat)
    requires n % 4 == 0 && (dst + n <= src || src + n <= dst) && Mapped(s.mem, dst, dst + n) && Mapped(s.mem, src, src + n)
    modifies s`mem
    ensures Copied(old(s.mem), src, s.mem, dst, n) && s.mem.Keys == old(s.mem).Keys
    ensures forall w :: w in s.mem && (w < dst || dst + n - 4 < w) ==> s.mem[w] == old(s.mem)[w]
  {
    var i := 0;
    while i < n
      invariant 0 <= i <= n && i % 4 == 0 && s.mem.Keys == old(s.mem).Keys
      invariant Copied(old(s.mem), src, s.mem, dst, i)
      invariant forall w :: w in s.mem && (w < dst || dst + i - 4 < w) ==> s.mem[w] == old(s.mem)[w]
    {
      s.mem := s.mem[dst + i := s.mem[src + i]];
      i := i + 4;
    }
  }

  /** Block a has been moved to block b of at least n bytes with all its contents; others are as they were. */
  ghost predicate Moved(m: Mem, cs: ChunkMap, m': Mem, cs': ChunkMap, a: int, b: int, n: nat) {
    && a in cs && b != a && b in cs' && n <= cs'[b].size <= n + MIN_CHUNK && b !in Live(cs)
    && Live(cs') == (Live(cs) - {a})[b := cs'[b].size]
    && LiveKept(m, cs, m', cs', a)
    && Copied(m, a + PAYLOAD, m', b + PAYLOAD, cs[a].size - HEADER)
  }

  lemma BeforeCopy(s: KmState, a: int, b: int, n: nat)
    requires Valid(s) && a in s.chunks && s.chunks[a].used && b in s.chunks && s.chunks[b].used && a != b
    requires n % 4 == 0 && n + HEADER <= s.chunks[a].size && n + HEADER <= s.chunks[b].size
    ensures a + PAYLOAD + n <= b + PAYLOAD || b + PAYLOAD + n <= a + PAYLOAD
    ensures Mapped(s.mem, a + PAYLOAD, a + PAYLOAD + n) && Mapped(s.mem, b + PAYLOAD, b + PAYLOAD + n)
  {
    ApartChunks(HeapOf(s), a, b);
    ChunkFacts(HeapOf(s), a);
    ChunkFacts(HeapOf(s), b);
    assert Mapped(s.mem, s.heapStart, s.heapStart + s.heapSize);
    hide Valid;
  }

  lemma BlockIsWritten(m: Mem, m': Mem, b: int, n: nat, size: nat)
    requires m'.Keys == m.Keys && n + HEADER <= size
    requires forall w :: w in m' && (w < b + PAYLOAD || b + PAYLOAD + n - 4 < w) ==> m'[w] == m[w]
    ensures BlockWritten(m, m', b, size)
  {
  }

  /** The contents of a block may be overwritten. */
  lemma AfterCopy(s: KmState, m: Mem, b: int)
    requires HeapOK(m, HeapOf(s)) && OwnFree(s.own, s.chunks) && b in s.chunks && s.chunks[b].used
    requires Stored(m, s.own, s.links, s.heapStart, s.heapStart + s.heapSize)
    requires ListsOK(s.own, s.links, s.ring, s.shape) && HeadsOK(s.ring, s.shape, s.sbin, s.tbin, s.sbinmap, s.tbinmap)
    requires BlockWritten(m, s.mem, b, s.chunks[b].size)
    requires BinnedBut(s.own, s.chunks, s.dv, 0) && VictimOK(s.chunks, s.dv, s.dvSize)
    requires SizesAgree(s)
    ensures Valid(s) && LiveKept(m, s.chunks, s.mem, s.chunks, b)
  {
    hide *;
    HeapOfIs(s);
    WriteBlock(m, s.mem, HeapOf(s), s.own, s.links, b);
    FoldBinsBy(s);
    FoldValid(s);
  }

  /** kmemcpy of a block's contents into another block. */
  method CopyBlock(s: KmState, a: int, b: int, n: nat)
    requires Valid(s) && a in s.chunks && s.chunks[a].used && b in s.chunks && s.chunks[b].used && a != b
    requires n % 4 == 0 && n + HEADER <= s.chunks[a].size && n + HEADER <= s.chunks[b].size
    modifies s`mem
    ensures Valid(s) && LiveKept(old(s.mem), s.chunks, s.mem, s.chunks, b)
    ensures Copied(old(s.mem), a + PAYLOAD, s.mem, b + PAYLOAD, n)
  {
    hide *;
    ghost var m := s.mem;
    BeforeCopy(s, a, b, n);
    ValidIsLoose(s);
    UnfoldLoose(s, 0);
    UnfoldCore(s);
    UnfoldHeads(s);
    CopyWords(s, b + PAYLOAD, a + PAYLOAD, n);
    BlockIsWritten(m, s.mem, b, n, s.chunks[b].size);
    AfterCopy(s, m, b);
  }

  lemma UnfoldHeads(s: KmState)
    requires s.BinsOK()
    ensures Stored(s.mem, s.own, s.links, s.heapStart, s.heapStart + s.heapSize)
    ensures ListsOK(s.own, s.links, s.ring, s.shape) && HeadsOK(s.ring, s.shape, s.sbin, s.tbin, s.sbinmap, s.tbinmap)
  {
  }

  lemma GrantedBlock(s: KmState, m: Mem, cs: ChunkMap, a: int, b: int, n: nat)
    requires Valid(s) && Granted(m, cs, s.mem, s.chunks, b, n) && a in cs && cs[a].used && a != 0 && cs[a].size < n
    ensures a in s.chunks && s.chunks[a].used && s.chunks[a].size == cs[a].size && b in s.chunks && s.chunks[b].used
    ensures a != b && cs[a].size <= s.chunks[b].size && cs[a].size >= HEADER && (cs[a].size - HEADER) % 4 == 0
    ensures 0 !in s.chunks && b != 0
  {
    hide *;
    ValidIsLoose(s);
    UnfoldLoose(s, 0);
    UnfoldCore(s);
    GrantedSizes(s.mem, s.chunks, m, cs, a, b, n);
    NoChunkAtZero(HeapOf(s));
    PayloadSize(HeapOf(s), a);
  }

  lemma GrantedSizes(m': Mem, cs': ChunkMap, m: Mem, cs: ChunkMap, a: int, b: int, n: nat)
    requires Granted(m, cs, m', cs', b, n) && a in cs && cs[a].used && a != 0 && cs[a].size < n
    ensures a in cs' && cs'[a].used && cs'[a].size == cs[a].size && b in cs' && cs'[b].used
    ensures a != b && cs[a].size <= cs'[b].size
  {
    assert b in Live(cs') && a in Live(cs);
  }

  lemma PayloadSize(h: Heap, a: int)
    requires Tiled(h) && a in h.chunks
    ensures h.chunks[a].size >= HEADER && (h.chunks[a].size - HEADER) % 4 == 0
  {
    ChunkFacts(h, a);
    hide Tiled;
  }

  lemma MovedBy(m0: Mem, cs0: ChunkMap, m1: Mem, cs1: ChunkMap, m2: Mem, m3: Mem, cs3: ChunkMap, a: int, b: int, n: nat)
    requires Granted(m0, cs0, m1, cs1, b, n) && LiveKept(m1, cs1, m2, cs1, b)
    requires LiveKept(m2, cs1, m3, cs3, a) && Live(cs3) == Live(cs1) - {a}
    requires a in cs0 && cs0[a].used && a != b && a != 0 && 0 !in cs0 && 0 !in cs1
    requires cs0[a].size <= cs1[b].size && cs0[a].size >= HEADER
    requires Copied(m1, a + PAYLOAD, m2, b + PAYLOAD, cs0[a].size - HEADER)
    ensures Moved(m0, cs0, m3, cs3, a, b, n)
  {
    assert b in Live(cs1) && b in Live(cs3) && cs3[b].size == cs1[b].size;
    assert BlockKept(m0, m1, a, cs0[a].size);
    assert BlockKept(m2, m3, b, cs1[b].size);
    forall c | c in cs0 && cs0[c].used && c != a
      ensures c in cs3 && cs3[c].used && cs3[c].size == cs0[c].size && BlockKept(m0, m3, c, cs0[c].size)
    {
      assert c in Live(cs0) && c != b;
      assert BlockKept(m0, m1, c, cs0[c].size) && BlockKept(m1, m2, c, cs1[c].size) && BlockKept(m2, m3, c, cs1[c].size);
    }
  }

  /** The block gets a new place: allocate, copy, free. */
  method MoveBlock(s: KmState, ptr: int, n: nat) returns (r: int, undefined: bool)
    requires Valid(s) && ptr - PAYLOAD in s.chunks && s.chunks[ptr - PAYLOAD].used
    requires s.chunks[ptr - PAYLOAD].size < n && MIN_CHUNK <= n && n % 8 == 0
    modifies s`mem, s`chunks, s`links, s`own, s`ring, s`shape, s`sbin, s`sbinmap, s`tbin, s`tbinmap, s`dv, s`dvSize
    modifies s`top, s`topSize, s`heapSize, s.pager, s`aborts
    ensures undefined <==> BeyondBins(old(s.own), n)
    ensures Valid(s) && s.aborts == old(s.aborts)
    ensures undefined ==> r == 0
    ensures !undefined ==> (r == 0 <==> old(NoRoom(s, n)) && !old(Extensible(s, n)))
    ensures r == 0 ==> Live(s.chunks) == Live(old(s.chunks)) && LiveKept(old(s.mem), old(s.chunks), s.mem, s.chunks, 0)
    ensures r != 0 ==> Moved(old(s.mem), old(s.chunks), s.mem, s.chunks, ptr - PAYLOAD, r - PAYLOAD, n)
    ensures EndOf(s) == MovedEnd(old(s.own), old(s.dvSize), old(s.chunks), old(EndOf(s)), ptr - PAYLOAD, n, r, s.top)
    ensures MovedTo(old(StockOf(s)), old(s.chunks), old(EndOf(s)), ptr - PAYLOAD, n, r, SizeAt(s.chunks, r - PAYLOAD),
                    s.own, s.dv, s.dvSize)
  {
    hide *;
    StockIs(s);
    EndIs(s);
    ghost var k := StockOf(s);
    ghost var a, m0, cs0 := ptr - PAYLOAD, s.mem, s.chunks;
    ghost var own0, dvSize0, e0 := s.own, s.dvSize, EndOf(s);
    BehindWord(s, a);
    NonZero(s, a);
    var capacity := SizeOf(s.mem[ptr - PAYLOAD + HEADER]) - HEADER;
    r, undefined := KmallocIntern(s, n, true);
    UnfoldAnswer(m0, cs0, s.mem, s.chunks, r, n);
    ghost var dv1, dvSize1, size1 := s.dv, s.dvSize, SizeAt(s.chunks, r - PAYLOAD);
    EndIs(s);
    if r == 0 {
      AllottedIs(k, e0.top, n, 0, size1, s.dv, s.dvSize);
      NotMoved(k, cs0, e0, a, n, size1, s.own, s.dv, s.dvSize);
    } else {
      ghost var m1, cs1, b := s.mem, s.chunks, r - PAYLOAD;
      GrantedBlock(s, m0, cs0, a, b, n);
      CopyBlock(s, ptr - PAYLOAD, r - PAYLOAD, capacity);
      ghost var m2 := s.mem;
      UsedIsPointer(s, a);
      FreedEndIs(s.chunks, s.heapStart, EndOf(s), a, s.top);
      ghost var cs2, e2, h2 := s.chunks, EndOf(s), HeapOf(s);
      FreesUsed(s, a);
      KFree(s, ptr);
      FreedVictim(h2, dv1, dvSize1, a, s.own, s.dv, s.dvSize);
      SizeKept(cs2, s.chunks, a, b);
      FoldMoved(k, cs0, e0, a, n, r, size1, dv1, dvSize1, s.own, s.dv, s.dvSize);
      FreedEndIs(cs2, s.heapStart, e2, a, s.top);
      MovedBy(m0, cs0, m1, cs1, m2, s.mem, s.chunks, a, b, n);
    }
    MovedEndIs(own0, dvSize0, cs0, e0, a, n, r, s.top);
  }

  lemma FreesUsed(s: KmState, a: int)
    requires Valid(s)
    ensures Tiled(HeapOf(s)) && HeapOf(s).holeSize == 0 && HeapOf(s).chunks == s.chunks && HeapOf(s).top == s.top
    ensures VictimOK(s.chunks, s.dv, s.dvSize)
  {
    hide *;
    ValidHeap(s);
    ValidIsLoose(s);
    UnfoldLoose(s, 0);
  }

  lemma SizeKept(cs: ChunkMap, cs': ChunkMap, a: int, b: int)
    requires Live(cs') == Live(cs) - {a} && b != a && b in cs && cs[b].used
    ensures SizeAt(cs', b) == SizeAt(cs, b)
  {
    assert b in Live(cs) && b in Live(cs');
  }

  /** Where the block at a came to be when n bytes were allocated for it and it was freed then, how large it is there, and the free
      lists and the designated victim after that. */
  ghost predicate MovedTo(k: Stock, cs: ChunkMap, e: End, a: int, n: nat, r: int, size: nat, own': map<int, nat>,
                          dv': int, dvSize': nat) {
    && a in cs
    && if r == 0 then dv' == k.dv && dvSize' == k.dvSize
       else exists dv, dvSize ::
              && Allotted(k, e.top, n, r, size, dv, dvSize)
              && VictimAfter(dv, dvSize, AllocatedEnd(k.own, k.dvSize, e, n, true).top, a, a + cs[a].size, own', dv', dvSize')
  }

  lemma NotMoved(k: Stock, cs: ChunkMap, e: End, a: int, n: nat, size: nat, own': map<int, nat>, dv': int, dvSize': nat)
    requires a in cs && dv' == k.dv && dvSize' == k.dvSize
    ensures MovedTo(k, cs, e, a, n, 0, size, own', dv', dvSize')
  {
  }

  lemma FoldMoved(k: Stock, cs: ChunkMap, e: End, a: int, n: nat, r: int, size: nat, dv: int, dvSize: nat, own': map<int, nat>,
                  dv': int, dvSize': nat)
    requires a in cs && r != 0 && Allotted(k, e.top, n, r, size, dv, dvSize)
    requires VictimAfter(dv, dvSize, AllocatedEnd(k.own, k.dvSize, e, n, true).top, a, a + cs[a].size, own', dv', dvSize')
    ensures MovedTo(k, cs, e, a, n, r, size, own', dv', dvSize')
  {
    hide Allotted, VictimAfter, AllocatedEnd;
  }

  /** The heap's end after a new block of n bytes and, if there is one, the release of the block at a. */
  ghost function MovedEnd(own: map<int, nat>, dvSize: nat, cs: ChunkMap, e: End, a: int, n: nat, r: int, top: int): End {
    var e' := AllocatedEnd(own, dvSize, e, n, true);
    if r != 0 && a in cs && a + cs[a].size == e'.top then JoinedEnd(e', top) else e'
  }

  lemma MovedEndIs(own: map<int, nat>, dvSize: nat, cs: ChunkMap, e: End, a: int, n: nat, r: int, top: int)
    ensures var e' := AllocatedEnd(own, dvSize, e, n, true);
            MovedEnd(own, dvSize, cs, e, a, n, r, top) ==
              if r != 0 && a in cs && a + cs[a].size == e'.top then JoinedEnd(e', top) else e'
  {
  }

  lemma NonZero(s: KmState, a: int)
    requires Valid(s) && a in s.chunks
    ensures a != 0 && 0 !in s.chunks && s.heapStart != 0 && a + PAYLOAD != 0
  {
    NoChunkAtZero(HeapOf(s));
    ChunkFacts(HeapOf(s), a);
  }

  lemma UnfoldAnswer(m: Mem, cs: ChunkMap, m': Mem, cs': ChunkMap, r: int, n: nat)
    requires Answer(m, cs, m', cs', r, n)
    ensures if r == 0 then Live(cs') == Live(cs) && LiveKept(m, cs, m', cs', 0) else Granted(m, cs, m', cs', r - PAYLOAD, n)
  {
  }

  lemma UsedIsPointer(s: KmState, a: int)
    requires Valid(s) && a in s.chunks && s.chunks[a].used
    ensures Pointer(s, a + PAYLOAD) && a in Live(s.chunks) && a + PAYLOAD - PAYLOAD == a
    ensures s.heapStart != 0
  {
    NonZero(s, a);
  }

  // ----- krealloc

  /** What a successful krealloc of block a to at least n bytes did: grown or shrunk in place, or moved. */
  ghost predicate Reallocated(m: Mem, cs: ChunkMap, m': Mem, cs': ChunkMap, a: int, b: int, n: nat) {
    && a in cs && b in cs' && n <= cs'[b].size <= n + MIN_CHUNK && (b == a || b !in Live(cs))
    && Live(cs') == (Live(cs) - {a})[b := cs'[b].size]
    && LiveKept(m, cs, m', cs', a)
    && Copied(m, a + PAYLOAD, m', b + PAYLOAD, (if cs[a].size <= cs'[b].size then cs[a].size else cs'[b].size) - HEADER)
  }

  lemma InPlaceIs(m: Mem, cs: ChunkMap, m': Mem, cs': ChunkMap, a: int, size: nat, n: nat)
    requires InPlace(m, cs, m', cs', a, size) && n <= size <= n + MIN_CHUNK && a in cs && cs[a].used
    ensures Reallocated(m, cs, m', cs', a, a, n)
  {
    assert Live(cs)[a := size] == (Live(cs) - {a})[a := size];
  }

  lemma MovedIs(m: Mem, cs: ChunkMap, m': Mem, cs': ChunkMap, a: int, b: int, n: nat)
    requires Moved(m, cs, m', cs', a, b, n) && a in cs && cs[a].size < n
    ensures Reallocated(m, cs, m', cs', a, b, n)
  {
  }

  lemma UntouchedIs(m: Mem, cs: ChunkMap, a: int, n: nat)
    requires a in cs && cs[a].used && n <= cs[a].size <= n + MIN_CHUNK
    ensures Reallocated(m, cs, m, cs, a, a, n)
  {
    LiveSame(m, cs);
    assert Live(cs) == (Live(cs) - {a})[a := cs[a].size];
  }

  /** Growing the block at a to n bytes goes wrong. */
  ghost predicate Strikes(s: KmState, a: int, n: nat)
    reads s`own, s`links, s`chunks
  {
    Strike(s.own, s.links, s.chunks, a, n)
  }

  ghost predicate Strike(own: map<int, nat>, k: Links, cs: ChunkMap, a: int, n: nat) {
    a in cs && cs[a].size < n && HeaderStrikes(own, k, cs, a, n)
  }

  /** The block at a is smaller than n bytes, also together with what is free behind it. */
  ghost predicate Outgrows(s: KmState, a: int, n: nat)
    reads s`chunks, s`top, s`topSize
  {
    Outgrow(s.chunks, s.top, s.topSize, a, n)
  }

  ghost predicate Outgrow(cs: ChunkMap, top: int, topSize: nat, a: int, n: nat) {
    a in cs && cs[a].size < n && cs[a].size + FreeBehind(cs, top, topSize, a) < n
  }

  lemma GrowthIs(s: KmState, a: int, n: nat)
    requires a in s.chunks
    ensures Strikes(s, a, n) <==> s.chunks[a].size < n && HeaderStrikes(s.own, s.links, s.chunks, a, n)
    ensures Outgrows(s, a, n) <==>
              s.chunks[a].size < n && s.chunks[a].size + FreeBehind(s.chunks, s.top, s.topSize, a) < n
  {
  }

  /** How a call of krealloc ends.  Struck: a header falls on a field of a binned chunk and is followed as a link or used
      as an index.  Shifted: a bitmap is shifted by its full width.  Torn: a region behind a free chunk is about to become
      a free chunk of its own.  Otherwise all is well. */
  datatype Ending = Done | Struck | Shifted | Torn

  /** The block gives its end to the top chunk, which stays within a page. */
  ghost predicate GivesToTop(s: KmState, a: int, n: nat)
    reads s`chunks, s`top, s`topSize
  {
    a in s.chunks && n < s.chunks[a].size && a + s.chunks[a].size == s.top && s.chunks[a].size - n + s.topSize <= 4096
  }

  lemma GivesIs(s: KmState, a: int, n: nat)
    requires a in s.chunks
    ensures GivesToTop(s, a, n) <==>
              n < s.chunks[a].size && a + s.chunks[a].size == s.top && s.chunks[a].size - n + s.topSize <= 4096
  {
  }

  /** The heap's end after the block at a has been resized to n bytes and is at r now, if r is not NULL. */
  ghost function ResizedEnd(own: map<int, nat>, dvSize: nat, cs: ChunkMap, e: End, a: int, n: nat, r: int, top: int): End {
    if a !in cs then e
    else if n <= cs[a].size then if n < cs[a].size && a + cs[a].size == e.top then JoinedEnd(e, a + n) else e
    else if Outgrow(cs, e.top, e.topSize, a, n) then MovedEnd(own, dvSize, cs, e, a, n, r, top)
    else GrownEnd(cs, e, a, n)
  }

  lemma ResizedEndIs(own: map<int, nat>, dvSize: nat, cs: ChunkMap, e: End, a: int, n: nat, r: int, top: int)
    requires a in cs
    ensures ResizedEnd(own, dvSize, cs, e, a, n, r, top) ==
              if n <= cs[a].size then if n < cs[a].size && a + cs[a].size == e.top then JoinedEnd(e, a + n) else e
              else if cs[a].size + FreeBehind(cs, e.top, e.topSize, a) < n then MovedEnd(own, dvSize, cs, e, a, n, r, top)
              else GrownEnd(cs, e, a, n)
  {
  }

  /** Where the block at a is after a successful krealloc to n bytes, how large it is, and the free lists and the designated victim
      after that.  It stays as it is if it has that size, or if it would give back less than 16 bytes that could not join free ones
      behind them.  A smaller size it gets exactly.  A larger one it gets in place if what is free behind it suffices, and else in
      a new place. */
  ghost predicate ResizedTo(k: Stock, cs: ChunkMap, e: End, a: int, n: nat, r: int, size: nat, own': map<int, nat>,
                            dv': int, dvSize': nat) {
    && a in cs
    && var next, now := a + cs[a].size, cs[a].size;
    if n == now || (now < n + MIN_CHUNK && n < now && next in cs && cs[next].used) then
      r - PAYLOAD == a && size == now && dv' == k.dv && dvSize' == k.dvSize
    else if n < now then
      r - PAYLOAD == a && size == n && Merged(cs, e.top, k.dv, k.dvSize, a + n, now - n, own', dv', dvSize')
    else if n <= now + FreeBehind(cs, e.top, e.topSize, a) then
      r - PAYLOAD == a && Expanded(cs, e.top, e.topSize, k.dv, k.dvSize, a, n, size, own', dv', dvSize')
    else MovedTo(k, cs, e, a, n, r, size, own', dv', dvSize')
  }

  lemma ResizedIs(k: Stock, cs: ChunkMap, e: End, a: int, n: nat, r: int, size: nat, own': map<int, nat>, dv': int, dvSize': nat)
    requires a in cs
    ensures n == cs[a].size || (cs[a].size < n + MIN_CHUNK && n < cs[a].size && a + cs[a].size in cs && cs[a + cs[a].size].used) ==>
              (ResizedTo(k, cs, e, a, n, r, size, own', dv', dvSize') <==>
                r - PAYLOAD == a && size == cs[a].size && dv' == k.dv && dvSize' == k.dvSize)
    ensures n < cs[a].size && !(cs[a].size < n + MIN_CHUNK && a + cs[a].size in cs && cs[a + cs[a].size].used) ==>
              (ResizedTo(k, cs, e, a, n, r, size, own', dv', dvSize') <==>
                r - PAYLOAD == a && size == n && Merged(cs, e.top, k.dv, k.dvSize, a + n, cs[a].size - n, own', dv', dvSize'))
    ensures n > cs[a].size && n <= cs[a].size + FreeBehind(cs, e.top, e.topSize, a) ==>
              (ResizedTo(k, cs, e, a, n, r, size, own', dv', dvSize') <==>
                r - PAYLOAD == a && Expanded(cs, e.top, e.topSize, k.dv, k.dvSize, a, n, size, own', dv', dvSize'))
    ensures n > cs[a].size + FreeBehind(cs, e.top, e.topSize, a) ==>
              (ResizedTo(k, cs, e, a, n, r, size, own', dv', dvSize') <==> MovedTo(k, cs, e, a, n, r, size, own', dv', dvSize'))
  {
    hide Merged, Expanded, MovedTo, FreeBehind;
  }

  /** krealloc of a block in use. */
  method ResizeBlock(s: KmState, ptr: int, newSize: nat) returns (r: int, ending: Ending)
    requires Valid(s) && ptr - PAYLOAD in s.chunks && s.chunks[ptr - PAYLOAD].used
    requires MIN_CHUNK <= newSize && newSize % 8 == 0
    modifies s`mem, s`chunks, s`links, s`own, s`ring, s`shape, s`sbin, s`sbinmap, s`tbin, s`tbinmap, s`dv, s`dvSize
    modifies s`top, s`topSize, s`heapSize, s.pager, s`aborts
    ensures ending == Done || ending == Struck || ending == Shifted
    ensures ending == Struck <==> old(Strikes(s, ptr - PAYLOAD, newSize))
    ensures ending == Shifted <==> old(Outgrows(s, ptr - PAYLOAD, newSize)) && BeyondBins(old(s.own), newSize)
    ensures ending != Struck ==> Valid(s) && s.aborts == old(s.aborts)
    ensures ending != Done ==> r == 0
    ensures ending == Done ==>
              (r == 0 <==> old(Outgrows(s, ptr - PAYLOAD, newSize)) && old(NoRoom(s, newSize)) && !old(Extensible(s, newSize)))
    ensures ending != Struck && r == 0 ==>
              Live(s.chunks) == Live(old(s.chunks)) && LiveKept(old(s.mem), old(s.chunks), s.mem, s.chunks, 0)
    ensures r != 0 ==>
              Reallocated(old(s.mem), old(s.chunks), s.mem, s.chunks, ptr - PAYLOAD, r - PAYLOAD, newSize)
    ensures old(GivesToTop(s, ptr - PAYLOAD, newSize)) ==>
              s.top == ptr - PAYLOAD + newSize && s.topSize == old(s.top + s.topSize) - s.top
    ensures ending == Done ==>
              EndOf(s) == ResizedEnd(old(s.own), old(s.dvSize), old(s.chunks), old(EndOf(s)), ptr - PAYLOAD, newSize, r, s.top)
    ensures ending == Done ==>
              ResizedTo(old(StockOf(s)), old(s.chunks), old(EndOf(s)), ptr - PAYLOAD, newSize, r, SizeAt(s.chunks, r - PAYLOAD),
                      s.own, s.dv, s.dvSize)
  {
    hide *;
    var chunk := ptr - PAYLOAD;
    ghost var m, cs, own, dvSize, e, k := s.mem, s.chunks, s.own, s.dvSize, EndOf(s), StockOf(s);
    EndIs(s);
    StockIs(s);
    SizeAtIs(cs, chunk);
    SomeSize();
    NonZero(s, chunk);
    BehindWord(s, chunk);
    NextCases(s, chunk);
    GrowthIs(s, chunk, newSize);
    GivesIs(s, chunk, newSize);
    if s.chunks[chunk].size < newSize {
      HitsOnlyFree(s, chunk, newSize);
    }
    var next := chunk + SizeOf(s.mem[chunk + HEADER]);
    var size := SizeOf(s.mem[chunk + HEADER]);
    r, ending := 0, Done;
    if newSize == size {
      UntouchedIs(m, cs, chunk, newSize);
      r := ptr;
    } else if newSize < size {
      var diff := size - newSize;
      TopNotInUse(s, next);
      if diff < MIN_CHUNK && InUse(s.mem[next + HEADER]) {
        UntouchedIs(m, cs, chunk, newSize);
        ResizedEndIs(own, dvSize, cs, e, chunk, newSize, ptr, s.top);
        ResizedIs(k, cs, e, chunk, newSize, ptr, SizeAt(s.chunks, chunk), s.own, s.dv, s.dvSize);
        return ptr, Done;
      }
      ShrinkBlock(s, chunk, newSize, next);
      InPlaceSize(m, cs, s.mem, s.chunks, chunk, newSize);
      SizeAtIs(s.chunks, chunk);
      InPlaceIs(m, cs, s.mem, s.chunks, chunk, newSize, newSize);
      r := ptr;
    } else {
      var ok, fault := TryExpandChunk(s, chunk, newSize);
      if fault {
        return 0, Struck;
      }
      if ok {
        InPlaceIs(m, cs, s.mem, s.chunks, chunk, s.chunks[chunk].size, newSize);
        r := ptr;
      } else {
        var undefined;
        r, undefined := MoveBlock(s, ptr, newSize);
        if undefined {
          return 0, Shifted;
        }
        if r != 0 {
          MovedIs(m, cs, s.mem, s.chunks, chunk, r - PAYLOAD, newSize);
        }
      }
    }
    ResizedEndIs(own, dvSize, cs, e, chunk, newSize, r, s.top);
    ResizedIs(k, cs, e, chunk, newSize, r, SizeAt(s.chunks, r - PAYLOAD), s.own, s.dv, s.dvSize);
  }

  lemma TopNotInUse(s: KmState, e: int)
    requires Valid(s) && e + HEADER in s.mem
    ensures e == s.top ==> !InUse(s.mem[e + HEADER])
  {
    hide *;
    ValidHeap(s);
    TopHeader(s.mem, HeapOf(s));
  }

  lemma TopHeader(m: Mem, h: Heap)
    requires HeapOK(m, h)
    ensures h.top + HEADER in m ==> !InUse(m[h.top + HEADER])
  {
    BoundsOf(h);
    hide Tiled;
  }

  lemma NextCases(s: KmState, a: int)
    requires Valid(s) && a in s.chunks && s.chunks[a].used
    ensures var e := a + s.chunks[a].size;
            && e + HEADER in s.mem && (InUse(s.mem[e + HEADER]) || e == s.top || (e in s.chunks && !s.chunks[e].used))
            && (InUse(s.mem[e + HEADER]) <==> e in s.chunks && s.chunks[e].used)
  {
    ChunkWords(s, 0, a);
    hide Valid;
  }

  /** How krealloc ends.  It rounds without a test for overflow. */
  ghost function EndingOf(s: KmState, ptr: int, req: nat): Ending
    reads s`own, s`links, s`chunks, s`heapStart, s`top, s`topSize
  {
    if s.heapStart == 0 then Done else EndingIn(s.own, s.links, s.chunks, s.top, s.topSize, ptr, req)
  }

  ghost function EndingIn(own: map<int, nat>, k: Links, cs: ChunkMap, top: int, topSize: nat, ptr: int, req: nat): Ending {
    var a, n := ptr - PAYLOAD, RequestToSize(req);
    if ptr == 0 then if !RequestOverflow(req) && BeyondBins(own, n) then Shifted else Done
    else if req == 0 || a !in cs || !cs[a].used then Done
    else if n == 0 then if cs[a].pinuse then Done else Torn
    else if Strike(own, k, cs, a, n) then Struck
    else if Outgrow(cs, top, topSize, a, n) && BeyondBins(own, n) then Shifted
    else Done
  }

  lemma EndingIs(s: KmState, ptr: int, req: nat)
    ensures var a, n := ptr - PAYLOAD, RequestToSize(req);
            EndingOf(s, ptr, req) ==
              if s.heapStart == 0 then Done
              else if ptr == 0 then if !RequestOverflow(req) && BeyondBins(s.own, n) then Shifted else Done
              else if req == 0 || a !in s.chunks || !s.chunks[a].used then Done
              else if n == 0 then if s.chunks[a].pinuse then Done else Torn
              else if Strikes(s, a, n) then Struck
              else if Outgrows(s, a, n) && BeyondBins(s.own, n) then Shifted
              else Done
  {
  }

  lemma UsedIsLive(cs: ChunkMap, a: int)
    ensures a in Live(cs) <==> a in cs && cs[a].used
  {
  }

  // ----- a request that rounds to nothing

  lemma BeforeNothing(s: KmState, a: int, v: int)
    requires Valid(s) && a in s.chunks && s.chunks[a].used && s.chunks[a].pinuse
    ensures a + HEADER in s.mem && s.BinsOK() && Clear(s.own, a + HEADER) && s.heapStart <= a + HEADER <= s.heapStart + s.heapSize - 4
    ensures var cs', m' := s.chunks - {a}, s.mem[a + HEADER := v];
            && HeapOK(m', Heap(cs', s.top, s.topSize, s.heapStart, s.heapStart + s.heapSize, a, s.chunks[a].size))
            && OwnFree(s.own, cs') && s.chunks[a].size >= MIN_CHUNK && BinnedBut(s.own, cs', s.dv, 0)
            && (s.dv == a || VictimOK(cs', s.dv, s.dvSize))
            && LiveKept(s.mem, s.chunks, m', cs', a) && Live(cs') == Live(s.chunks) - {a}
    ensures SizesAgree(s) && 0 !in s.chunks
  {
    hide *;
    ValidIsLoose(s);
    ChunkWords(s, 0, a);
    BinnedBeforeDef(s, a, 0);
    OpenRegion(s, 0, a);
    UnfoldLoose(s, 0);
    UnfoldCore(s);
    ChunkIsClear(HeapOf(s), s.own, a);
    UsedNotBinned(s.own, s.chunks, a);
    VacatedIs(s.mem, HeapOf(s), a);
    var h := FreeRegion(s.mem, HeapOf(s), a);
    HoleWord(s.mem, h, a + HEADER, v);
    LiveTransBut(s.mem, s.chunks, s.mem, h.chunks, s.mem[a + HEADER := v], h.chunks, a);
    PayloadSize(HeapOf(s), a);
  }

  lemma UsedNotBinned(own: map<int, nat>, cs: ChunkMap, a: int)
    requires OwnFree(own, cs) && a in cs && cs[a].used
    ensures a !in own
  {
  }

  lemma VacatedIs(m: Mem, h: Heap, a: int)
    requires Tiled(h) && a in h.chunks && h.chunks[a].pinuse
    ensures FreeRegion(m, h, a).chunks == h.chunks - {a} && h.chunks[a].size >= MIN_CHUNK >= 16 && HEADER == 4
    ensures h.lo <= a && a + h.chunks[a].size <= h.hi - 8
  {
    ChunkFacts(h, a);
    hide Tiled;
  }

  lemma NothingIsPart(s: KmState, a: int)
    requires Valid(s) && a in s.chunks && s.chunks[a].used
    ensures a + HEADER in s.mem && PrevInUse(s.mem[a + HEADER]) == s.chunks[a].pinuse && SizeOf(s.mem[a + HEADER]) == s.chunks[a].size
    ensures PrevInUse(s.mem[a + HEADER]) == (s.mem[a + HEADER] % 2 == 1) && a + SizeOf(CINUSE + s.mem[a + HEADER] % 2) == a
    ensures s.chunks[a].size >= MIN_CHUNK
  {
    hide *;
    ValidIsLoose(s);
    ChunkWords(s, 0, a);
    NothingLeft(s.mem[a + HEADER], a);
  }

  lemma NothingLeft(w: int, a: int)
    ensures PrevInUse(w) == (w % 2 == 1) && a + SizeOf(CINUSE + w % 2) == a
  {
  }

  /** The new size is 0: header and address of what is to be freed are the block's own.  Where the chunk in front is in use
      that frees the block. */
  method ShrinkToNothing(s: KmState, chunk: int, next: int) returns (torn: bool)
    requires Valid(s) && chunk in s.chunks && s.chunks[chunk].used && next == chunk + s.chunks[chunk].size
    modifies s`mem, s`chunks, s`links, s`own, s`ring, s`shape, s`sbin, s`sbinmap, s`tbin, s`tbinmap, s`dv, s`dvSize
    modifies s`top, s`topSize, s`heapSize, s.pager
    ensures torn <==> !old(s.chunks)[chunk].pinuse
    ensures !torn ==> Valid(s) && Live(s.chunks) == Live(old(s.chunks)) - {chunk}
    ensures !torn ==> LiveKept(old(s.mem), old(s.chunks), s.mem, s.chunks, chunk)
    ensures torn ==> s.mem == old(s.mem)[chunk + HEADER := CINUSE] && s.chunks == old(s.chunks)
    ensures !torn ==> EndOf(s) == if next == old(s.top) then JoinedEnd(old(EndOf(s)), chunk) else old(EndOf(s))
    ensures !torn ==> Freed(old(s.chunks), old(s.top), old(s.dv), old(s.dvSize), chunk, s.own, s.dv, s.dvSize)
  {
    hide *;
    NothingIsPart(s, chunk);
    ghost var m, cs := s.mem, s.chunks;
    var size := SizeOf(s.mem[chunk + HEADER]);
    var header := CINUSE + s.mem[chunk + HEADER] % 2;
    torn := s.mem[chunk + HEADER] % 2 != 1;
    if torn {
      s.mem := s.mem[chunk + HEADER := header];
      return;
    }
    BeforeNothing(s, chunk, header);
    s.Poke(chunk + HEADER, header);
    s.chunks := s.chunks - {chunk};
    SomeSize();
    FoldOpened(s, chunk, size);
    ghost var m1, cs1 := s.mem, s.chunks;
    MergeFreeChunks(s, chunk, size, next);
    BeginsHere(cs, chunk);
    FreedBy(cs, cs1, old(s.top), old(s.dv), old(s.dvSize), chunk, chunk, s.own, s.dv, s.dvSize);
    NoZero(cs, chunk);
    LiveTransBut(m, cs, m1, cs1, s.mem, s.chunks, chunk);
  }

  lemma BeginsHere(cs: ChunkMap, a: int)
    requires a in cs && cs[a].pinuse
    ensures BeginsAt(cs, a, a)
  {
  }

  lemma SomeSize()
    ensures MIN_CHUNK > 0
  {
  }

  lemma NoZero(cs: ChunkMap, a: int)
    ensures 0 !in cs ==> 0 !in cs - {a}
  {
  }

  // ----- the whole call

  /** The heap's end after krealloc. */
  ghost function ReallocEnd(heapStart: int, own: map<int, nat>, dvSize: nat, cs: ChunkMap, e: End, ptr: int, req: nat, r: int,
                            top: int): End {
    if heapStart == 0 then e
    else if ptr == 0 then if RequestOverflow(req) then e else AllocatedEnd(own, dvSize, e, RequestToSize(req), true)
    else if req == 0 then FreedEnd(cs, heapStart, e, ptr - PAYLOAD, top)
    else if ptr - PAYLOAD !in Live(cs) then e
    else ResizedEnd(own, dvSize, cs, e, ptr - PAYLOAD, RequestToSize(req), r, top)
  }

  lemma ReallocEndIs(heapStart: int, own: map<int, nat>, dvSize: nat, cs: ChunkMap, e: End, ptr: int, req: nat, r: int, top: int)
    ensures ReallocEnd(heapStart, own, dvSize, cs, e, ptr, req, r, top) ==
              if heapStart == 0 then e
              else if ptr == 0 then if RequestOverflow(req) then e else AllocatedEnd(own, dvSize, e, RequestToSize(req), true)
              else if req == 0 then FreedEnd(cs, heapStart, e, ptr - PAYLOAD, top)
              else if ptr - PAYLOAD !in Live(cs) then e
              else ResizedEnd(own, dvSize, cs, e, ptr - PAYLOAD, RequestToSize(req), r, top)
  {
  }

  /** krealloc.  It keeps all it should, and answers NULL exactly when the block has to move and there is no room, unless it
      ends in one of the other ways.  The block it returns has room for the request exactly if that does not overflow. */
  method KRealloc(s: KmState, ptr: int, req: nat) returns (r: int, ending: Ending)
    requires (s.heapStart == 0 || Valid(s)) && Pointer(s, ptr) && req < SIZE_T_LIMIT
    modifies s`mem, s`chunks, s`links, s`own, s`ring, s`shape, s`sbin, s`sbinmap, s`tbin, s`tbinmap, s`dv, s`dvSize
    modifies s`top, s`topSize, s`heapSize, s.pager, s`aborts
    ensures ending == old(EndingOf(s, ptr, req))
    ensures old(s.heapStart) != 0 && (ending == Done || ending == Shifted) ==> Valid(s)
    ensures s.heapStart == 0 ==> r == 0 && s.mem == old(s.mem) && s.aborts == old(s.aborts)
    ensures s.heapStart != 0 && ptr == 0 ==> Answer(old(s.mem), old(s.chunks), s.mem, s.chunks, r, RequestToSize(req))
    ensures s.heapStart != 0 && ptr == 0 && ending == Done ==>
              (r == 0 <==> RequestOverflow(req) ||
                           (old(NoRoom(s, RequestToSize(req))) && !old(Extensible(s, RequestToSize(req)))))
    ensures ptr == 0 ==> s.aborts == old(s.aborts)
    ensures ptr == 0 && r != 0 ==> r - PAYLOAD in Live(s.chunks) && req <= Live(s.chunks)[r - PAYLOAD] - HEADER
    ensures ptr != 0 && req == 0 ==> r == 0
    ensures ending != Done ==> r == 0
    ensures Resizes(s, old(s.chunks), ptr, req) && ending == Done ==> s.aborts == old(s.aborts)
    ensures Resizes(s, old(s.chunks), ptr, req) && ending == Done && RequestToSize(req) == 0 ==>
              && r == ptr && Live(s.chunks) == Live(old(s.chunks)) - {ptr - PAYLOAD}
              && LiveKept(old(s.mem), old(s.chunks), s.mem, s.chunks, ptr - PAYLOAD)
    ensures Resizes(s, old(s.chunks), ptr, req) && ending == Done && RequestToSize(req) != 0 ==>
              && (r == 0 <==> old(Outgrows(s, ptr - PAYLOAD, RequestToSize(req)))
                              && old(NoRoom(s, RequestToSize(req))) && !old(Extensible(s, RequestToSize(req))))
              && (r == 0 ==> Live(s.chunks) == Live(old(s.chunks)) && LiveKept(old(s.mem), old(s.chunks), s.mem, s.chunks, 0))
              && (r != 0 ==> Reallocated(old(s.mem), old(s.chunks), s.mem, s.chunks, ptr - PAYLOAD, r - PAYLOAD, RequestToSize(req)))
    ensures s.heapStart != 0 && ptr == 0 ==>
              Allotted(old(StockOf(s)), old(s.top), RequestToSize(req), r, SizeAt(s.chunks, r - PAYLOAD), s.dv, s.dvSize)
    ensures Resizes(s, old(s.chunks), ptr, req) && ending == Done && RequestToSize(req) == 0 ==>
              Freed(old(s.chunks), old(s.top), old(s.dv), old(s.dvSize), ptr - PAYLOAD, s.own, s.dv, s.dvSize)
    ensures Resizes(s, old(s.chunks), ptr, req) && ending == Done && RequestToSize(req) != 0 ==>
              ResizedTo(old(StockOf(s)), old(s.chunks), old(EndOf(s)), ptr - PAYLOAD, RequestToSize(req), r,
                      SizeAt(s.chunks, r - PAYLOAD), s.own, s.dv, s.dvSize)
    ensures s.heapStart != 0 && ptr != 0 && req == 0 && ptr - PAYLOAD in Live(old(s.chunks)) ==>
              Freed(old(s.chunks), old(s.top), old(s.dv), old(s.dvSize), ptr - PAYLOAD, s.own, s.dv, s.dvSize)
    ensures Resizes(s, old(s.chunks), ptr, req) && r != 0 ==> (HasRoom(s.chunks, r, req) <==> !RequestOverflow(req))
    ensures Resizes(s, old(s.chunks), ptr, req) && old(GivesToTop(s, ptr - PAYLOAD, RequestToSize(req))) && RequestToSize(req) != 0 ==>
              s.top == ptr - PAYLOAD + RequestToSize(req) && s.topSize == old(s.top + s.topSize) - s.top
    ensures s.heapStart != 0 && ptr != 0 && req == 0 && ptr - PAYLOAD in Live(old(s.chunks)) ==>
              && Live(s.chunks) == Live(old(s.chunks)) - {ptr - PAYLOAD} && s.aborts == old(s.aborts)
              && LiveKept(old(s.mem), old(s.chunks), s.mem, s.chunks, ptr - PAYLOAD)
    ensures s.heapStart != 0 && ptr != 0 && ptr - PAYLOAD !in Live(old(s.chunks)) ==>
              r == 0 && s.mem == old(s.mem) && s.chunks == old(s.chunks) && s.aborts == old(s.aborts) + 1
    ensures ending == Done ==>
              EndOf(s) == ReallocEnd(s.heapStart, old(s.own), old(s.dvSize), old(s.chunks), old(EndOf(s)), ptr, req, r, s.top)
  {
    hide *;
    ghost var cs, own, dvSize, e := s.chunks, s.own, s.dvSize, EndOf(s);
    EndIs(s);
    EndingIs(s, ptr, req);
    UsedIsLive(s.chunks, ptr - PAYLOAD);
    ResizesIs(s, s.chunks, ptr, req);
    ending := Done;
    LiveSame(s.mem, s.chunks);
    if ptr == 0 {
      var undefined;
      r, undefined := KMalloc(s, req);
      ending := if undefined then Shifted else Done;
      ReallocEndIs(s.heapStart, own, dvSize, cs, e, ptr, req, r, s.top);
      return;
    }
    if req == 0 {
      KFree(s, ptr);
      ReallocEndIs(s.heapStart, own, dvSize, cs, e, ptr, req, 0, s.top);
      FreedEndIs(cs, s.heapStart, e, ptr - PAYLOAD, s.top);
      return 0, Done;
    }
    if s.heapStart == 0 {
      ReallocEndIs(s.heapStart, own, dvSize, cs, e, ptr, req, 0, s.top);
      return 0, Done;
    }
    var chunk := ptr - PAYLOAD;
    if AddressOK(s, chunk) {
      PointerCases(s, ptr);
    } else if chunk in Live(s.chunks) {
      LiveInHeap(s, chunk);
    }
    if !AddressOK(s, chunk) || !InUse(s.mem[chunk + HEADER]) {
      s.aborts := s.aborts + 1;
      ReallocEndIs(s.heapStart, own, dvSize, cs, e, ptr, req, 0, s.top);
      return 0, Done;
    }
    r, ending := ResizeUsed(s, ptr, req);
    ResizesIs(s, old(s.chunks), ptr, req);
    ReallocEndIs(s.heapStart, own, dvSize, cs, e, ptr, req, r, s.top);
  }

  /** The part of krealloc that has a block in use. */
  method ResizeUsed(s: KmState, ptr: int, req: nat) returns (r: int, ending: Ending)
    requires Valid(s) && ptr - PAYLOAD in s.chunks && s.chunks[ptr - PAYLOAD].used && 0 < req < SIZE_T_LIMIT && ptr != 0
    modifies s`mem, s`chunks, s`links, s`own, s`ring, s`shape, s`sbin, s`sbinmap, s`tbin, s`tbinmap, s`dv, s`dvSize
    modifies s`top, s`topSize, s`heapSize, s.pager, s`aborts
    ensures ending == old(EndingOf(s, ptr, req)) && (ending != Done ==> r == 0)
    ensures ending == Done || ending == Shifted ==> Valid(s) && s.aborts == old(s.aborts)
    ensures ending == Done && RequestToSize(req) == 0 ==>
              && r == ptr && Live(s.chunks) == Live(old(s.chunks)) - {ptr - PAYLOAD}
              && LiveKept(old(s.mem), old(s.chunks), s.mem, s.chunks, ptr - PAYLOAD)
    ensures ending == Done && RequestToSize(req) == 0 ==>
              Freed(old(s.chunks), old(s.top), old(s.dv), old(s.dvSize), ptr - PAYLOAD, s.own, s.dv, s.dvSize)
    ensures ending == Done && RequestToSize(req) != 0 ==>
              ResizedTo(old(StockOf(s)), old(s.chunks), old(EndOf(s)), ptr - PAYLOAD, RequestToSize(req), r,
                      SizeAt(s.chunks, r - PAYLOAD), s.own, s.dv, s.dvSize)
    ensures ending == Done && RequestToSize(req) != 0 ==>
              && (r == 0 <==> old(Outgrows(s, ptr - PAYLOAD, RequestToSize(req)))
                              && old(NoRoom(s, RequestToSize(req))) && !old(Extensible(s, RequestToSize(req))))
              && (r == 0 ==> Live(s.chunks) == Live(old(s.chunks)) && LiveKept(old(s.mem), old(s.chunks), s.mem, s.chunks, 0))
              && (r != 0 ==> Reallocated(old(s.mem), old(s.chunks), s.mem, s.chunks, ptr - PAYLOAD, r - PAYLOAD, RequestToSize(req)))
    ensures r != 0 ==> (HasRoom(s.chunks, r, req) <==> !RequestOverflow(req))
    ensures old(GivesToTop(s, ptr - PAYLOAD, RequestToSize(req))) && RequestToSize(req) != 0 ==>
              s.top == ptr - PAYLOAD + RequestToSize(req) && s.topSize == old(s.top + s.topSize) - s.top
    ensures ending == Done ==>
              EndOf(s) == ResizedEnd(old(s.own), old(s.dvSize), old(s.chunks), old(EndOf(s)), ptr - PAYLOAD, RequestToSize(req), r, s.top)
  {
    hide *;
    var chunk := ptr - PAYLOAD;
    ghost var m, cs, own, dvSize, e := s.mem, s.chunks, s.own, s.dvSize, EndOf(s);
    EndIs(s);
    SomeSize();
    SizeOfChunk(s, chunk);
    EndingIs(s, ptr, req);
    NonZero(s, chunk);
    BehindWord(s, chunk);
    NextInHeap(s, chunk);
    Rounded(req);
    var next := chunk + SizeOf(s.mem[chunk + HEADER]);
    if !AddressOK(s, next) {
      assert false;
    }
    var newSize := RequestToSize(req);
    if newSize == 0 {
      // the branch for smaller sizes below, on which nothing is left of the block
      var torn := ShrinkToNothing(s, chunk, next);
      NothingHasRoom(cs, s.chunks, ptr, req);
      ResizedEndIs(own, dvSize, cs, e, chunk, 0, ptr, s.top);
      r, ending := if torn then 0 else ptr, if torn then Torn else Done;
    } else {
      r, ending := ResizeBlock(s, ptr, newSize);
      if r != 0 {
        RoomExact(s, m, cs, chunk, r, req);
      }
    }
  }

  /** A block in use, and a size that is not 0. */
  ghost predicate Resizes(s: KmState, cs: ChunkMap, ptr: int, req: nat)
    reads s`heapStart
  {
    s.heapStart != 0 && ptr != 0 && req != 0 && ptr - PAYLOAD in Live(cs)
  }

  lemma ResizesIs(s: KmState, cs: ChunkMap, ptr: int, req: nat)
    ensures Resizes(s, cs, ptr, req) <==> s.heapStart != 0 && ptr != 0 && req != 0 && ptr - PAYLOAD in Live(cs)
  {
  }

  /** The block at r can hold req bytes. */
  ghost predicate HasRoom(cs: ChunkMap, r: int, req: nat) {
    r - PAYLOAD in Live(cs) && req <= Live(cs)[r - PAYLOAD] - HEADER
  }

  lemma NothingHasRoom(cs: ChunkMap, cs': ChunkMap, ptr: int, req: nat)
    requires RequestToSize(req) == 0
    ensures Live(cs') == Live(cs) - {ptr - PAYLOAD} ==> !HasRoom(cs', ptr, req)
    ensures RequestOverflow(req) <==> req > 0
  {
    hide RequestToSize;
  }

  lemma RoomExact(s: KmState, m: Mem, cs: ChunkMap, a: int, r: int, req: nat)
    requires Valid(s) && Reallocated(m, cs, s.mem, s.chunks, a, r - PAYLOAD, RequestToSize(req)) && req < SIZE_T_LIMIT
    ensures HasRoom(s.chunks, r, req) <==> !RequestOverflow(req)
  {
    ReallocatedLives(m, cs, s.mem, s.chunks, a, r - PAYLOAD, RequestToSize(req));
    ValidHeap(s);
    hide Valid, Reallocated, RequestToSize, HeapOK, Tiled;
    ChunkBound(HeapOf(s), r - PAYLOAD);
    OverflowIs(req);
  }

  lemma ReallocatedLives(m: Mem, cs: ChunkMap, m': Mem, cs': ChunkMap, a: int, b: int, n: nat)
    requires Reallocated(m, cs, m', cs', a, b, n)
    ensures b in cs' && b in Live(cs') && n <= cs'[b].size == Live(cs')[b]
  {
  }

  lemma ChunkBound(h: Heap, a: int)
    requires Tiled(h) && a in h.chunks
    ensures h.chunks[a].size < SIZE_LIMIT
  {
    ChunkFacts(h, a);
    BoundsOf(h);
    hide Tiled;
  }

  /** The sizes whose rounding wraps: the last four become the smallest chunk, the seven before them nothing. */
  lemma OverflowIs(req: nat)
    requires req < SIZE_T_LIMIT
    ensures RequestOverflow(req) <==> req >= 0xFFFF_FFF5
    ensures !RequestOverflow(req) ==> req + HEADER <= RequestToSize(req)
    ensures RequestToSize(req) == 0 <==> 0xFFFF_FFF5 <= req <= 0xFFFF_FFFB
    ensures req >= 0xFFFF_FFFC ==> RequestToSize(req) == MIN_CHUNK
    ensures RequestOverflow(req) ==> req >= SIZE_LIMIT
  {
  }

  lemma Rounded(req: nat)
    ensures RequestToSize(req) == 0 || (RequestToSize(req) >= MIN_CHUNK && RequestToSize(req) % 8 == 0)
  {
  }

  lemma NextInHeap(s: KmState, a: int)
    requires Valid(s) && a in s.chunks
    ensures a + HEADER in s.mem && AddressOK(s, a + SizeOf(s.mem[a + HEADER])) && 0 !in s.chunks
  {
    ChunkWords(s, 0, a);
    hide Valid, SizeOf;
  }

  /** The rounding krealloc relies on works exactly for the requests kmalloc does not refuse. */
  lemma RoundingExact(req: nat)
    requires req < SIZE_T_LIMIT
    ensures !RequestOverflow(req) <==> req + HEADER <= RequestToSize(req)
  {
    if !RequestOverflow(req) {
      RequestToSizeRounds(req);
    }
  }
}
