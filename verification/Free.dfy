/** Giving memory back: merge_free_chunks and kfree. */
module Free {
  import opened BinIndex
  import opened FreeLists
  import opened HeapState
  import opened Chunks
  import opened Bins
  import opened HeapOps
  import opened Top

  /** The heap with a region that is free but not a chunk yet. */
  ghost function HoleHeap(s: KmState, first: int, size: nat): Heap
    reads s`chunks, s`top, s`topSize, s`heapStart, s`heapSize
  {
    Heap(s.chunks, s.top, s.topSize, s.heapStart, s.heapStart + s.heapSize, first, size)
  }

  /** Everything but the contents of memory, which is to be m: the hole is at first, and it may contain
      what used to be the designated victim. */
  ghost predicate Opened(s: KmState, m: Mem, first: int, size: nat)
    reads s, s.pager
  {
    && s.BinsOK() && HeapOK(m, HoleHeap(s, first, size)) && OwnFree(s.own, s.chunks) && size > 0
    && BinnedBut(s.own, s.chunks, s.dv, 0) && SizesAgree(s)
    && (s.dv == first || VictimOK(s.chunks, s.dv, s.dvSize))
  }

  // ----- what becomes of the region

  /** The chunks and the designated victim before the free bytes from first on, size of them, were merged with what is behind them,
      and the free lists and the designated victim after that.  If the top chunk was behind, the designated victim is gone if it
      was where the region begins, and unchanged otherwise.  If it was where the region begins or behind it, it is the merged
      chunk.  Otherwise it is unchanged and the merged chunk is binned. */
  ghost predicate Merged(cs: ChunkMap, top: int, dv: int, dvSize: nat, first: int, size: nat, own': map<int, nat>,
                         dv': int, dvSize': nat) {
    var next := first + size;
    var all := size + if next in cs && !cs[next].used then cs[next].size else 0;
    if next == top then if dv == first then dv' == 0 && dvSize' == 0 else dv' == dv && dvSize' == dvSize
    else if dv == first || dv == next then dv' == first && dvSize' == all
    else dv' == dv && dvSize' == dvSize && first in own' && own'[first] == all
  }

  lemma MergedSame(cs: ChunkMap, cs1: ChunkMap, top: int, dv: int, dvSize: nat, first: int, size: nat, own': map<int, nat>,
                   dv': int, dvSize': nat)
    requires first + size in cs1 <==> first + size in cs
    requires first + size in cs && first + size in cs1 ==> cs1[first + size] == cs[first + size]
    requires Merged(cs1, top, dv, dvSize, first, size, own', dv', dvSize')
    ensures Merged(cs, top, dv, dvSize, first, size, own', dv', dvSize')
  {
  }

  /** What becomes of the designated victim when the bytes from a to e are freed.  If it ends or begins there, it is the free chunk
      that has them, or there is none any more if the top chunk has.  Otherwise it is unchanged, and a binned chunk has them unless
      the top chunk has. */
  ghost predicate VictimAfter(dv: int, dvSize: nat, top: int, a: int, e: int, own': map<int, nat>, dv': int, dvSize': nat) {
    if dv != 0 && (dv + dvSize == a || dv == e) then
      if e == top then dv' == 0 && dvSize' == 0 else dv' <= a && e <= dv' + dvSize'
    else
      && dv' == dv && dvSize' == dvSize
      && (e != top ==> exists f :: f in own' && f <= a && e <= f + own'[f])
  }

  lemma FreedVictim(h: Heap, dv: int, dvSize: nat, a: int, own': map<int, nat>, dv': int, dvSize': nat)
    requires Tiled(h) && h.holeSize == 0 && a in h.chunks && h.chunks[a].used && VictimOK(h.chunks, dv, dvSize)
    requires Freed(h.chunks, h.top, dv, dvSize, a, own', dv', dvSize')
    ensures VictimAfter(dv, dvSize, h.top, a, a + h.chunks[a].size, own', dv', dvSize')
  {
    hide Tiled, Merged;
    var first :| BeginsAt(h.chunks, a, first)
                 && Merged(h.chunks, h.top, dv, dvSize, first, a - first + h.chunks[a].size, own', dv', dvSize');
    MergedIs(h.chunks, h.top, dv, dvSize, first, a - first + h.chunks[a].size, own', dv', dvSize');
    NoChunkAtZero(h);
    NextOf(h, a);
    VictimInFront(h, dv, dvSize, a, first);
    var e := a + h.chunks[a].size;
    if e != h.top && dv != first && dv != e {
      assert first in own' && first <= a && e <= first + own'[first];
    }
  }

  /** The designated victim is in front of the block exactly if it is where the region begins. */
  lemma VictimInFront(h: Heap, dv: int, dvSize: nat, a: int, first: int)
    requires Tiled(h) && h.holeSize == 0 && a in h.chunks && h.chunks[a].used && VictimOK(h.chunks, dv, dvSize)
    requires BeginsAt(h.chunks, a, first)
    ensures dv == first <==> dv != 0 && dv + dvSize == a
  {
    NoChunkAtZero(h);
    if dv in h.chunks && dv + dvSize == a {
      NextOf(h, dv);
      if first != dv && first != a {
        ApartChunks(h, dv, first);
      }
    }
    hide Tiled;
  }

  lemma MergedIs(cs: ChunkMap, top: int, dv: int, dvSize: nat, first: int, size: nat, own': map<int, nat>, dv': int, dvSize': nat)
    ensures first + size == top ==>
              (Merged(cs, top, dv, dvSize, first, size, own', dv', dvSize') <==>
                if dv == first then dv' == 0 && dvSize' == 0 else dv' == dv && dvSize' == dvSize)
    ensures var next := first + size;
            var all := size + if next in cs && !cs[next].used then cs[next].size else 0;
            && (next != top && (dv == first || dv == next) ==>
                  (Merged(cs, top, dv, dvSize, first, size, own', dv', dvSize') <==> dv' == first && dvSize' == all))
            && (next != top && dv != first && dv != next ==>
                  (Merged(cs, top, dv, dvSize, first, size, own', dv', dvSize') <==>
                    dv' == dv && dvSize' == dvSize && first in own' && own'[first] == all))
  {
  }

  /** The free region that block a becomes part of begins at first: at the free chunk in front of the block, if there is one. */
  ghost predicate BeginsAt(cs: ChunkMap, a: int, first: int) {
    && a in cs && first <= a
    && if cs[a].pinuse then first == a else first in cs && !cs[first].used && first + cs[first].size == a
  }

  /** The free lists and the designated victim after block a was freed. */
  ghost predicate Freed(cs: ChunkMap, top: int, dv: int, dvSize: nat, a: int, own': map<int, nat>, dv': int, dvSize': nat) {
    && a in cs
    && exists first :: BeginsAt(cs, a, first) && Merged(cs, top, dv, dvSize, first, a - first + cs[a].size, own', dv', dvSize')
  }

  lemma FreedBy(cs: ChunkMap, cs1: ChunkMap, top: int, dv: int, dvSize: nat, a: int, first: int, own': map<int, nat>,
                dv': int, dvSize': nat)
    requires BeginsAt(cs, a, first) && a in cs && first <= a
    requires var next := a + cs[a].size;
             next in cs1 <==> next in cs
    requires var next := a + cs[a].size;
             next in cs && next in cs1 ==> cs1[next] == cs[next]
    requires Merged(cs1, top, dv, dvSize, first, a - first + cs[a].size, own', dv', dvSize')
    ensures Freed(cs, top, dv, dvSize, a, own', dv', dvSize')
  {
    var size := a - first + cs[a].size;
    assert first + size == a + cs[a].size;
    assert Merged(cs, top, dv, dvSize, first, size, own', dv', dvSize');
    hide BeginsAt, Merged;
  }

  // ----- the free chunk gets its place

  /** The free chunk first is the designated victim or on no list. */
  ghost predicate Placeless(own: map<int, nat>, cs: ChunkMap, dv: int, dvSize: nat, first: int, size: nat) {
    && OwnFree(own, cs) && BinnedBut(own, cs, dv, first)
    && first in cs && !cs[first].used && cs[first].size == size
    && (dv == first || VictimOK(cs, dv, dvSize))
  }

  ghost predicate Closed(s: KmState, first: int, size: nat)
    reads s, s.pager
  {
    && Core(s) && SizesAgree(s)
    && Placeless(s.own, s.chunks, s.dv, s.dvSize, first, size)
  }

  lemma FoldClosed(s: KmState, first: int, size: nat)
    requires s.BinsOK() && Placeless(s.own, s.chunks, s.dv, s.dvSize, first, size)
    requires HeapOK(s.mem, Heap(s.chunks, s.top, s.topSize, s.heapStart, s.heapStart + s.heapSize, 0, 0))
    requires SizesAgree(s)
    ensures Closed(s, first, size)
  {
  }

  lemma BeforeShelve(s: KmState, first: int, size: nat)
    requires Closed(s, first, size)
    ensures Core(s) && s.BinsOK() && HeapOK(s.mem, HeapOf(s)) && OwnFree(s.own, s.chunks) && first !in s.own
    ensures HeapOf(s) == Heap(s.chunks, s.top, s.topSize, s.heapStart, s.heapStart + s.heapSize, 0, 0)
    ensures SizesAgree(s) && first in s.chunks && s.chunks[first].size == size
    ensures Binnable(s.mem, s.own, s.heapStart, s.heapStart + s.heapSize, first, size) && !s.chunks[first].used
    ensures if s.dv == first then BinnedBut(s.own, s.chunks, first, 0) && VictimOK(s.chunks, first, size)
            else BinnedBut(s.own[first := size], s.chunks, s.dv, 0) && VictimOK(s.chunks, s.dv, s.dvSize)
  {
    hide *;
    UnfoldClosed(s, first, size);
    UnfoldCore(s);
    NoChunkAtZero(HeapOf(s));
    PlacelessBooks(s.own, s.chunks, s.dv, s.dvSize, first, size);
    FreeIsBinnable(s.mem, HeapOf(s), s.own, first);
  }

  lemma UnfoldClosed(s: KmState, first: int, size: nat)
    requires Closed(s, first, size)
    ensures Core(s) && SizesAgree(s) && Placeless(s.own, s.chunks, s.dv, s.dvSize, first, size)
  {
  }

  lemma PlacelessBooks(own: map<int, nat>, cs: ChunkMap, dv: int, dvSize: nat, first: int, size: nat)
    requires Placeless(own, cs, dv, dvSize, first, size) && 0 !in cs
    ensures OwnFree(own, cs) && first !in own && first in cs && cs[first].size == size && !cs[first].used
    ensures if dv == first then BinnedBut(own, cs, first, 0) && VictimOK(cs, first, size)
            else BinnedBut(own[first := size], cs, dv, 0) && VictimOK(cs, dv, dvSize)
  {
  }

  /** A free chunk that is not the designated victim goes into its bin. */
  method BinFree(s: KmState, first: int, ghost size: nat)
    requires Closed(s, first, size) && s.dv != first
    modifies s`mem, s`links, s`own, s`ring, s`shape, s`sbin, s`sbinmap, s`tbin, s`tbinmap
    ensures Valid(s) && LiveKept(old(s.mem), s.chunks, s.mem, s.chunks, 0) && s.own == old(s.own)[first := size]
  {
    hide *;
    ghost var m0, own0, h := s.mem, s.own, HeapOf(s);
    BeforeShelve(s, first, size);
    BinChunk(s, first, size);
    BinningKept(m0, s.mem, h, own0, s.own, first);
    FoldValid(s);
  }

  /** The consolidated chunk stays the designated victim or goes into its bin. */
  method Shelve(s: KmState, first: int, size: nat)
    requires Closed(s, first, size)
    modifies s`mem, s`links, s`own, s`ring, s`shape, s`sbin, s`sbinmap, s`tbin, s`tbinmap, s`dv, s`dvSize
    ensures Valid(s) && LiveKept(old(s.mem), s.chunks, s.mem, s.chunks, 0)
    ensures if old(s.dv) == first then s.dv == first && s.dvSize == size && s.own == old(s.own)
            else s.dv == old(s.dv) && s.dvSize == old(s.dvSize) && s.own == old(s.own)[first := size]
  {
    hide *;
    if first == s.dv {
      BeforeShelve(s, first, size);
      LiveSame(s.mem, s.chunks);
      s.dv := first;
      s.dvSize := size;
      FoldValid(s);
    } else {
      BinFree(s, first, size);
    }
  }

  // ----- the hole in front of a chunk in use

  lemma UnfoldOpened(s: KmState, m: Mem, first: int, size: nat)
    requires Opened(s, m, first, size)
    ensures s.BinsOK() && HeapOK(m, HoleHeap(s, first, size)) && Tiled(HoleHeap(s, first, size)) && OwnFree(s.own, s.chunks)
    ensures HoleHeap(s, first, size) ==
              Heap(s.chunks, s.top, s.topSize, s.heapStart, s.heapStart + s.heapSize, first, size)
    ensures size > 0 && BinnedBut(s.own, s.chunks, s.dv, 0) && SizesAgree(s)
    ensures s.dv == first || VictimOK(s.chunks, s.dv, s.dvSize)
  {
  }

  lemma HoleIsClear(h: Heap, own: map<int, nat>)
    requires Tiled(h) && OwnFree(own, h.chunks) && h.holeSize > 0
    ensures forall w :: h.hole + HEADER <= w <= h.hole + h.holeSize ==> Clear(own, w)
    ensures h.lo <= h.hole + HEADER <= h.hole + h.holeSize <= h.hi - 8
  {
    hide Tiled;
    HoleFacts(h);
    forall x | x in own
      ensures h.hole + h.holeSize <= x || x + FieldsEnd(own[x]) <= h.hole
    {
      HoleApart(h, x);
      ChunkFacts(h, x);
    }
  }

  lemma CloseAlonePlaces(m: Mem, h: Heap, own: map<int, nat>)
    requires HeapOK(m, h) && OwnFree(own, h.chunks) && h.holeSize >= MIN_CHUNK && h.hole + h.holeSize in h.chunks
    requires h.chunks[h.hole + h.holeSize].used
    ensures var e, size := h.hole + h.holeSize, h.holeSize;
            && Clear(own, h.hole + HEADER) && Clear(own, e) && Clear(own, e + HEADER) && e + HEADER in m
            && h.lo <= h.hole + HEADER <= e <= e + HEADER <= h.hi - 4
            && var m1 := m[h.hole + HEADER := size + PINUSE][e := size];
            && e + HEADER in m1 && m1[e + HEADER] == W(m, e + HEADER) && m1 == FreeWords(m, h.hole, size)
            && CloseAlone(h) == Heap(CloseAlone(h).chunks, h.top, h.topSize, h.lo, h.hi, 0, 0)
  {
    var e := h.hole + h.holeSize;
    HoleFacts(h);
    HoleIsClear(h, own);
    ChunkIsClear(h, own, e);
    ChunkFacts(h, e);
    hide Tiled;
  }

  lemma CloseAloneBooks(h: Heap, own: map<int, nat>, dv: int, dvSize: nat)
    requires Tiled(h) && OwnFree(own, h.chunks) && BinnedBut(own, h.chunks, dv, 0)
    requires dv == h.hole || VictimOK(h.chunks, dv, dvSize)
    requires h.holeSize > 0 && h.hole + h.holeSize in h.chunks && h.chunks[h.hole + h.holeSize].used
    ensures Placeless(own, CloseAlone(h).chunks, dv, dvSize, h.hole, h.holeSize)
  {
    HoleFacts(h);
    NoChunkAtZero(h);
    hide Tiled;
  }

  lemma UsedNotVictim(cs: ChunkMap, dv: int, dvSize: nat, first: int, next: int)
    requires dv == first || VictimOK(cs, dv, dvSize)
    requires next in cs && cs[next].used && next != first && 0 !in cs
    ensures dv != next
  {
  }

  /** The hole begins where the chunk in use was, or the free chunk before it. */
  method CloseInFront(s: KmState, first: int, firstSize: nat, next: int)
    requires Opened(s, s.mem, first, firstSize) && firstSize >= MIN_CHUNK && next == first + firstSize
    requires next in s.chunks && s.chunks[next].used
    modifies s`mem, s`chunks, s`links, s`own, s`ring, s`shape, s`sbin, s`sbinmap, s`tbin, s`tbinmap, s`dv, s`dvSize
    ensures Valid(s) && LiveKept(old(s.mem), old(s.chunks), s.mem, s.chunks, 0) && Live(s.chunks) == Live(old(s.chunks))
    ensures if old(s.dv) == first then s.dv == first && s.dvSize == firstSize
            else s.dv == old(s.dv) && s.dvSize == old(s.dvSize) && first in s.own && s.own[first] == firstSize
  {
    hide *;
    ghost var m0, cs, h := s.mem, s.chunks, HoleHeap(s, first, firstSize);
    UnfoldOpened(s, s.mem, first, firstSize);
    CloseAloneOK(s.mem, h);
    LiveCloseAlone(h);
    CloseAlonePlaces(s.mem, h, s.own);
    CloseAloneBooks(h, s.own, s.dv, s.dvSize);
    s.Poke(first + HEADER, firstSize + PINUSE);
    s.Poke(next, firstSize);
    s.Poke(next + HEADER, AndNotPinuse(s.mem[next + HEADER]));
    s.chunks := CloseAlone(h).chunks;
    FoldClosed(s, first, firstSize);
    ghost var m1 := s.mem;
    Shelve(s, first, firstSize);
    LiveTrans(m0, cs, m1, s.chunks, s.mem, s.chunks, 0);
  }

  // ----- the hole in front of a free chunk or the top chunk

  /** Header and footer of the merged region are written, the rest of the books is still to be done. */
  ghost predicate Joining(s: KmState, m: Mem, first: int, firstSize: nat, newSize: nat)
    reads s, s.pager
  {
    Opened(s, m, first, firstSize) && s.mem == FreeWords(m, first, newSize)
  }

  lemma UnfoldJoining(s: KmState, m: Mem, first: int, firstSize: nat, newSize: nat)
    requires Joining(s, m, first, firstSize, newSize)
    ensures s.BinsOK() && HeapOK(m, HoleHeap(s, first, firstSize)) && Tiled(HoleHeap(s, first, firstSize))
    ensures OwnFree(s.own, s.chunks) && BinnedBut(s.own, s.chunks, s.dv, 0)
    ensures HoleHeap(s, first, firstSize) ==
              Heap(s.chunks, s.top, s.topSize, s.heapStart, s.heapStart + s.heapSize, first, firstSize)
    ensures firstSize > 0 && SizesAgree(s) && s.mem == FreeWords(m, first, newSize)
    ensures s.dv == first || VictimOK(s.chunks, s.dv, s.dvSize)
  {
  }

  lemma CloseTopBooks(h: Heap, own: map<int, nat>, dv: int, dvSize: nat)
    requires Tiled(h) && OwnFree(own, h.chunks) && BinnedBut(own, h.chunks, dv, 0) && h.holeSize > 0
    requires dv == h.hole || VictimOK(h.chunks, dv, dvSize)
    ensures dv == h.hole ==> BinnedBut(own, h.chunks, 0, 0) && VictimOK(h.chunks, 0, 0)
    ensures dv != h.hole ==> VictimOK(h.chunks, dv, dvSize)
  {
    HoleFacts(h);
    NoChunkAtZero(h);
    hide Tiled;
  }

  lemma CloseTopPlaces(m: Mem, h: Heap, own: map<int, nat>)
    requires HeapOK(m, h) && OwnFree(own, h.chunks) && h.holeSize > 0 && h.hole + h.holeSize == h.top
    ensures var newSize := h.holeSize + h.topSize;
            && Clear(own, h.hole + newSize) && h.lo <= h.hole + newSize <= h.hi - 4
            && FreeWords(m, h.hole, newSize)[h.hole + newSize := newSize] == FreeWords(m, h.hole, newSize)
            && CloseTop(h) == Heap(h.chunks, h.hole, newSize, h.lo, h.hi, 0, 0)
  {
    HoleFacts(h);
    TopIsClear(h, own);
    hide Tiled;
  }

  lemma PageIs()
    ensures PAGE == 4096
  {
  }

  lemma BeforeJoinTop(s: KmState, m: Mem, first: int, firstSize: nat, newSize: nat)
    requires Joining(s, m, first, firstSize, newSize) && first + firstSize == s.top && newSize == firstSize + s.topSize
    ensures s.BinsOK() && OwnFree(s.own, s.chunks) && SizesAgree(s)
    ensures Clear(s.own, first + newSize) && s.heapStart <= first + newSize <= s.heapStart + s.heapSize - 4
    ensures var m' := s.mem[first + newSize := newSize];
            && HeapOK(m', Heap(s.chunks, first, newSize, s.heapStart, s.heapStart + s.heapSize, 0, 0))
            && LiveKept(m, s.chunks, m', s.chunks, 0)
    ensures if first == s.dv then BinnedBut(s.own, s.chunks, 0, 0) && VictimOK(s.chunks, 0, 0)
            else BinnedBut(s.own, s.chunks, s.dv, 0) && VictimOK(s.chunks, s.dv, s.dvSize)
  {
    hide *;
    UnfoldJoining(s, m, first, firstSize, newSize);
    var h := HoleHeap(s, first, firstSize);
    CloseTopOK(m, h);
    CloseTopBooks(h, s.own, s.dv, s.dvSize);
    CloseTopPlaces(m, h, s.own);
  }

  /** The heap's end after the free bytes from first on have joined the top chunk. */
  ghost function JoinedEnd(e: End, first: int): End {
    if first <= e.top then Shrunk(e.(top := first, topSize := e.top - first + e.topSize)) else e
  }

  lemma JoinedEndIs(e: End, first: int)
    requires first <= e.top
    ensures JoinedEnd(e, first) == Shrunk(End(first, e.top - first + e.topSize, e.heapSize, e.initial, e.pager))
  {
  }

  /** The hole joins the top chunk, which may then be shrunk. */
  method JoinTop(s: KmState, first: int, firstSize: nat, newSize: nat, ghost m0: Mem)
    requires Joining(s, m0, first, firstSize, newSize) && first + firstSize == s.top && newSize == firstSize + s.topSize
    modifies s`mem, s`dv, s`dvSize, s`top, s`topSize, s`heapSize, s.pager
    ensures Valid(s) && LiveKept(m0, s.chunks, s.mem, s.chunks, 0)
    ensures s.top == first && (newSize <= 4096 ==> s.topSize == newSize)
    ensures EndOf(s) == JoinedEnd(old(EndOf(s)), first)
    ensures if old(s.dv) == first then s.dv == 0 && s.dvSize == 0 else s.dv == old(s.dv) && s.dvSize == old(s.dvSize)
  {
    hide *;
    PageIs();
    EndIs(s);
    JoinedEndIs(EndOf(s), first);
    BeforeJoinTop(s, m0, first, firstSize, newSize);
    if first == s.dv {
      s.dv := 0;
      s.dvSize := 0;
    }
    s.top := first;
    s.topSize := newSize;
    s.Poke(s.top + s.topSize, newSize);
    FoldValid(s);
    ghost var m1 := s.mem;
    EndIs(s);
    ShrinkTop(s);
    LiveTrans(m0, s.chunks, m1, s.chunks, s.mem, s.chunks, 0);
  }

  lemma JoinVictimBooks(h: Heap, own: map<int, nat>, dv: int)
    requires Tiled(h) && OwnFree(own, h.chunks) && BinnedBut(own, h.chunks, dv, 0)
    requires h.holeSize > 0 && h.hole + h.holeSize in h.chunks && !h.chunks[h.hole + h.holeSize].used
    requires dv == h.hole + h.holeSize
    ensures var cs, size := CloseMerge(h).chunks, h.holeSize + h.chunks[dv].size;
            OwnFree(own, cs) && BinnedBut(own, cs, h.hole, 0) && VictimOK(cs, h.hole, size)
    ensures CloseMerge(h) == Heap(CloseMerge(h).chunks, h.top, h.topSize, h.lo, h.hi, 0, 0)
  {
    HoleFacts(h);
    NoChunkAtZero(h);
    hide Tiled;
  }

  /** The hole joins the designated victim behind it. */
  method JoinVictim(s: KmState, first: int, firstSize: nat, newSize: nat, ghost m0: Mem)
    requires Joining(s, m0, first, firstSize, newSize) && s.dv == first + firstSize
    requires s.dv in s.chunks && !s.chunks[s.dv].used && newSize == firstSize + s.chunks[s.dv].size
    modifies s`chunks, s`dv, s`dvSize
    ensures Valid(s) && LiveKept(m0, old(s.chunks), s.mem, s.chunks, 0) && Live(s.chunks) == Live(old(s.chunks))
    ensures s.dv == first && s.dvSize == newSize
  {
    hide *;
    UnfoldJoining(s, m0, first, firstSize, newSize);
    ghost var h := HoleHeap(s, first, firstSize);
    CloseMergeOK(m0, h);
    LiveCloseMerge(h);
    JoinVictimBooks(h, s.own, s.dv);
    s.dv := first;
    s.dvSize := newSize;
    s.chunks := CloseMerge(h).chunks;
    FoldValid(s);
  }

  lemma JoinBinnedBooks(h: Heap, own: map<int, nat>, dv: int, dvSize: nat)
    requires Tiled(h) && OwnFree(own, h.chunks) && BinnedBut(own, h.chunks, dv, 0) && h.holeSize > 0
    requires dv == h.hole || VictimOK(h.chunks, dv, dvSize)
    requires h.hole + h.holeSize in h.chunks && !h.chunks[h.hole + h.holeSize].used && dv != h.hole + h.holeSize
    ensures var cs, e := CloseMerge(h).chunks, h.hole + h.holeSize;
            e in own && own[e] == h.chunks[e].size &&
            Placeless(own - {e}, cs, dv, dvSize, h.hole, h.holeSize + h.chunks[e].size)
    ensures CloseMerge(h) == Heap(CloseMerge(h).chunks, h.top, h.topSize, h.lo, h.hi, 0, 0)
  {
    HoleFacts(h);
    NoChunkAtZero(h);
    hide Tiled;
  }

  /** The header and the footer were written before the chunk behind left its bin; the other order gives the
      same memory. */
  lemma WordsCommute(m: Mem, h: Heap, own: map<int, nat>, newSize: nat, m2: Mem)
    requires HeapOK(m, h) && OwnFree(own, h.chunks) && h.holeSize > 0
    requires h.hole + h.holeSize in h.chunks && !h.chunks[h.hole + h.holeSize].used
    requires newSize == h.holeSize + h.chunks[h.hole + h.holeSize].size
    requires KeptOutside(FreeWords(m, h.hole, newSize), m2, own)
    ensures HeapOK(m2, CloseMerge(h)) && LiveKept(m, h.chunks, m2, CloseMerge(h).chunks, 0)
  {
    hide *;
    MergedWords(m, h, own, newSize);
    Restored(m, own, h.hole, newSize, m2);
    var m1 := m2[h.hole + HEADER := W(m, h.hole + HEADER)][h.hole + newSize := W(m, h.hole + newSize)];
    KeptByBins(m, m1, h, own);
    CloseMergeOK(m1, h);
    LiveTrans(m, h.chunks, m1, h.chunks, m2, CloseMerge(h).chunks, 0);
  }

  lemma MergedWords(m: Mem, h: Heap, own: map<int, nat>, newSize: nat)
    requires HeapOK(m, h) && OwnFree(own, h.chunks) && h.holeSize > 0
    requires h.hole + h.holeSize in h.chunks && !h.chunks[h.hole + h.holeSize].used
    requires newSize == h.holeSize + h.chunks[h.hole + h.holeSize].size
    ensures h.hole + HEADER in m && h.hole + newSize in m && HEADER < newSize
    ensures Outside(own, h.hole + HEADER) && Outside(own, h.hole + newSize)
  {
    var e := h.hole + h.holeSize;
    CloseMergeOK(m, h);
    OutsideChunks(h, own, e);
    forall x | x in own
      ensures h.hole + HEADER < x + PAYLOAD || x + own[x] <= h.hole
    {
      HoleApart(h, x);
    }
    hide Tiled;
  }

  lemma Restored(m: Mem, own: map<int, nat>, first: int, size: nat, m2: Mem)
    requires first + HEADER in m && first + size in m && HEADER < size
    requires Outside(own, first + HEADER) && Outside(own, first + size)
    requires KeptOutside(FreeWords(m, first, size), m2, own)
    ensures var m1 := m2[first + HEADER := W(m, first + HEADER)][first + size := W(m, first + size)];
            KeptOutside(m, m1, own) && FreeWords(m1, first, size) == m2
  {
  }

  /** The hole joins the binned chunk behind it. */
  method JoinBinned(s: KmState, first: int, firstSize: nat, newSize: nat, next: int, ghost m0: Mem)
    requires Joining(s, m0, first, firstSize, newSize) && next == first + firstSize && next != s.dv
    requires next in s.chunks && !s.chunks[next].used && newSize == firstSize + s.chunks[next].size
    modifies s`mem, s`chunks, s`links, s`own, s`ring, s`shape, s`sbin, s`sbinmap, s`tbin, s`tbinmap, s`dv, s`dvSize
    ensures Valid(s) && LiveKept(m0, old(s.chunks), s.mem, s.chunks, 0) && Live(s.chunks) == Live(old(s.chunks))
    ensures if old(s.dv) == first then s.dv == first && s.dvSize == newSize
            else s.dv == old(s.dv) && s.dvSize == old(s.dvSize) && first in s.own && s.own[first] == newSize
  {
    hide *;
    UnfoldJoining(s, m0, first, firstSize, newSize);
    ghost var h, own := HoleHeap(s, first, firstSize), s.own;
    LiveCloseMerge(h);
    JoinBinnedBooks(h, own, s.dv, s.dvSize);
    UnbinChunk(s, next);
    ghost var m2 := s.mem;
    WordsCommute(m0, h, own, newSize, m2);
    s.chunks := CloseMerge(h).chunks;
    FoldClosed(s, first, newSize);
    Shelve(s, first, newSize);
    LiveTrans(m0, h.chunks, m2, s.chunks, s.mem, s.chunks, 0);
  }

  lemma NextHeader(m: Mem, h: Heap, e: int)
    requires HeapOK(m, h) && (e == h.top || e in h.chunks)
    ensures e + HEADER in m && h.lo <= e && e + HEADER <= h.hi - 4
    ensures InUse(m[e + HEADER]) <==> e in h.chunks && h.chunks[e].used
    ensures e == h.top ==> SizeOf(m[e + HEADER]) == h.topSize && e !in h.chunks
    ensures e in h.chunks ==> SizeOf(m[e + HEADER]) == h.chunks[e].size
  {
    hide *;
    TopHeader(m, h);
    if e in h.chunks {
      HeaderSize(m, h, e);
      ChunkFacts(h, e);
      ChunkEnd(h, e);
    }
  }

  lemma ChunkEnd(h: Heap, e: int)
    requires Tiled(h) && e in h.chunks
    ensures e + HEADER <= h.hi - 4
  {
    ChunkFacts(h, e);
  }

  lemma TopHeader(m: Mem, h: Heap)
    requires HeapOK(m, h)
    ensures Tiled(h) && h.top !in h.chunks && h.top + HEADER in m && h.lo <= h.top && h.top + HEADER <= h.hi - 4
    ensures SizeOf(m[h.top + HEADER]) == h.topSize && !InUse(m[h.top + HEADER])
  {
    hide ChunkAt, Joined, Disjoint;
    AllBelowTop(h);
    assert TopAt(m, h) && W(m, h.top + HEADER) == m[h.top + HEADER];
  }

  lemma BeforeMerge(s: KmState, first: int, firstSize: nat, next: int)
    requires Opened(s, s.mem, first, firstSize) && next == first + firstSize
    ensures s.BinsOK() && HoleHeap(s, first, firstSize).chunks == s.chunks
    ensures next + HEADER in s.mem && (next == s.top || next in s.chunks) && s.top !in s.chunks
    ensures InUse(s.mem[next + HEADER]) <==> next in s.chunks && s.chunks[next].used
    ensures var nextSize, last := SizeOf(s.mem[next + HEADER]), s.heapStart + s.heapSize - 4;
            && nextSize == (if next in s.chunks then s.chunks[next].size else s.topSize)
            && s.heapStart <= first + HEADER <= last && s.heapStart <= first + firstSize + nextSize <= last
            && Clear(s.own, first + HEADER)
            && (!InUse(s.mem[next + HEADER]) ==> Clear(s.own, first + firstSize + nextSize))
  {
    hide *;
    UnfoldOpened(s, s.mem, first, firstSize);
    var h := HoleHeap(s, first, firstSize);
    MergePlaces(s.mem, h, s.own);
    NextHeader(s.mem, h, next);
  }

  lemma MergePlaces(m: Mem, h: Heap, own: map<int, nat>)
    requires HeapOK(m, h) && OwnFree(own, h.chunks) && h.holeSize > 0
    ensures var e := h.hole + h.holeSize;
            && (e == h.top || e in h.chunks) && h.top !in h.chunks
            && Clear(own, h.hole + HEADER) && h.lo <= h.hole + HEADER <= h.hi - 4
            && var end := e + if e in h.chunks then h.chunks[e].size else h.topSize;
            h.lo <= end <= h.hi - 4 && (!(e in h.chunks && h.chunks[e].used) ==> Clear(own, end))
  {
    var e := h.hole + h.holeSize;
    HoleFacts(h);
    AllBelowTop(h);
    HoleIsClear(h, own);
    TopIsClear(h, own);
    if e in h.chunks && !h.chunks[e].used {
      FooterIsClear(h, own, e);
    }
    hide Tiled;
  }

  lemma FooterIsClear(h: Heap, own: map<int, nat>, a: int)
    requires Tiled(h) && OwnFree(own, h.chunks) && a in h.chunks
    ensures Clear(own, a + h.chunks[a].size)
  {
    forall x | x in own && x != a
      ensures a + h.chunks[a].size < x + HEADER || x + own[x] <= a
    {
      ApartChunks(h, a, x);
    }
    hide Tiled;
  }

  lemma FoldJoining(s: KmState, m: Mem, first: int, firstSize: nat, newSize: nat)
    requires s.BinsOK() && HeapOK(m, HoleHeap(s, first, firstSize)) && OwnFree(s.own, s.chunks) && firstSize > 0
    requires BinnedBut(s.own, s.chunks, s.dv, 0) && SizesAgree(s)
    requires s.dv == first || VictimOK(s.chunks, s.dv, s.dvSize)
    requires s.mem == m[first + HEADER := newSize + PINUSE][first + newSize := newSize]
    ensures Joining(s, m, first, firstSize, newSize)
  {
  }

  /** merge_free_chunks: the region at first joins the free chunk or top chunk behind it, or becomes a chunk of
      its own; the result is put where it belongs. */
  method MergeFreeChunks(s: KmState, first: int, firstSize: nat, next: int)
    requires Opened(s, s.mem, first, firstSize) && next == first + firstSize
    requires firstSize >= MIN_CHUNK || next == s.top || (next in s.chunks && !s.chunks[next].used)
    modifies s`mem, s`chunks, s`links, s`own, s`ring, s`shape, s`sbin, s`sbinmap, s`tbin, s`tbinmap, s`dv, s`dvSize
    modifies s`top, s`topSize, s`heapSize, s.pager
    ensures Valid(s) && LiveKept(old(s.mem), old(s.chunks), s.mem, s.chunks, 0) && Live(s.chunks) == Live(old(s.chunks))
    ensures next == old(s.top) ==> s.top == first
    ensures next == old(s.top) && firstSize + old(s.topSize) <= 4096 ==> s.topSize == firstSize + old(s.topSize)
    ensures EndOf(s) == if next == old(s.top) then JoinedEnd(old(EndOf(s)), first) else old(EndOf(s))
    ensures Merged(old(s.chunks), old(s.top), old(s.dv), old(s.dvSize), first, firstSize, s.own, s.dv, s.dvSize)
  {
    hide *;
    BeforeMerge(s, first, firstSize, next);
    UnfoldOpened(s, s.mem, first, firstSize);
    ghost var m0 := s.mem;
    if !InUse(s.mem[next + HEADER]) {
      var nextSize := SizeOf(s.mem[next + HEADER]);
      var newSize := firstSize + nextSize;
      s.Poke(first + HEADER, newSize + PINUSE);
      s.Poke(first + newSize, newSize);
      FoldJoining(s, m0, first, firstSize, newSize);
      if next == s.top {
        JoinTop(s, first, firstSize, newSize, m0);
      } else if next == s.dv {
        JoinVictim(s, first, firstSize, newSize, m0);
      } else {
        JoinBinned(s, first, firstSize, newSize, next, m0);
      }
      MergedIs(old(s.chunks), old(s.top), old(s.dv), old(s.dvSize), first, firstSize, s.own, s.dv, s.dvSize);
    } else {
      NoChunkAtZero(HoleHeap(s, first, firstSize));
      UsedNotVictim(s.chunks, s.dv, s.dvSize, first, next);
      CloseInFront(s, first, firstSize, next);
      MergedIs(old(s.chunks), old(s.top), old(s.dv), old(s.dvSize), first, firstSize, s.own, s.dv, s.dvSize);
    }
  }

  // ----- kfree

  /** ADDRESS_OK */
  predicate AddressOK(s: KmState, chunk: int)
    reads s`heapStart, s`heapSize
  {
    s.heapStart <= chunk < s.heapStart + s.heapSize
  }

  /** What kfree and krealloc may be given: NULL, an address outside the heap, the block of any chunk, or an
      address that does not look like a chunk in use. */
  ghost predicate Pointer(s: KmState, ptr: int)
    reads s`chunks, s`mem, s`heapStart, s`heapSize
  {
    var chunk := ptr - PAYLOAD;
    || ptr == 0 || chunk < s.heapStart || s.heapStart + s.heapSize <= chunk || chunk in s.chunks
    || (chunk + HEADER in s.mem && !InUse(s.mem[chunk + HEADER]))
  }

  /** The words in and around chunk a say what the books say. */
  lemma ChunkWords(s: KmState, x: int, a: int)
    requires Loose(s, x) && a in s.chunks
    ensures 0 !in s.chunks && a + HEADER in s.mem && AddressOK(s, a) && SizeOf(s.mem[a + HEADER]) == s.chunks[a].size >= MIN_CHUNK
    ensures InUse(s.mem[a + HEADER]) == s.chunks[a].used && PrevInUse(s.mem[a + HEADER]) == s.chunks[a].pinuse
    ensures var e := a + s.chunks[a].size;
            && AddressOK(s, e) && (e == s.top || e in s.chunks) && e + HEADER in s.mem && s.top !in s.chunks
            && (InUse(s.mem[e + HEADER]) <==> e in s.chunks && s.chunks[e].used)
            && SizeOf(s.mem[e + HEADER]) == (if e in s.chunks then s.chunks[e].size else s.topSize)
    ensures !s.chunks[a].pinuse ==>
              && a in s.mem && var p := a - s.mem[a];
              && p in s.chunks && AddressOK(s, p) && p + HEADER in s.mem && p != 0 && p != a && s.mem[a] == s.chunks[p].size
              && SizeOf(s.mem[p + HEADER]) == s.mem[a] && !InUse(s.mem[p + HEADER]) && !s.chunks[p].used
  {
    hide *;
    UnfoldLoose(s, x);
    UnfoldCore(s);
    HeaderSize(s.mem, HeapOf(s), a);
    NextOf(HeapOf(s), a);
    NextHeader(s.mem, HeapOf(s), a + s.chunks[a].size);
    AllBelowTop(HeapOf(s));
    NoChunkAtZero(HeapOf(s));
    ChunkInHeap(s, a);
    if !s.chunks[a].pinuse {
      PrevChunk(s.mem, HeapOf(s), a);
      PrevWord(s.mem, a);
      HeaderSize(s.mem, HeapOf(s), a - s.mem[a]);
      ChunkInHeap(s, a - s.mem[a]);
    }
  }

  lemma PrevWord(m: Mem, a: int)
    ensures a in m ==> W(m, a) == m[a]
  {
  }

  lemma ChunkInHeap(s: KmState, a: int)
    requires Tiled(HeapOf(s)) && a in s.chunks
    ensures a != 0 && AddressOK(s, a) && AddressOK(s, a + s.chunks[a].size) && s.chunks[a].size >= MIN_CHUNK
  {
    ChunkFacts(HeapOf(s), a);
  }

  /** x is the free chunk before a, if there is one and it is not the designated victim, and 0 otherwise. */
  ghost predicate BinnedBefore(s: KmState, a: int, x: int)
    requires a in s.chunks
    reads s`chunks, s`mem, s`dv
  {
    var p := a - W(s.mem, a);
    x == if s.chunks[a].pinuse || p == s.dv then 0 else p
  }

  lemma OpenRegion(s: KmState, x: int, a: int)
    requires Loose(s, x) && a in s.chunks && s.chunks[a].used && BinnedBefore(s, a, x)
    ensures var h := FreeRegion(s.mem, HeapOf(s), a);
            && HeapOf(s).chunks == s.chunks && 0 !in h.chunks && h.holeSize > 0
            && h == Heap(h.chunks, s.top, s.topSize, s.heapStart, s.heapStart + s.heapSize, h.hole, h.holeSize)
            && HeapOK(s.mem, h) && OwnFree(s.own, h.chunks) && h.holeSize >= MIN_CHUNK
            && BinnedBut(s.own, h.chunks, s.dv, 0) && (s.dv == h.hole || VictimOK(h.chunks, s.dv, s.dvSize))
            && LiveKept(s.mem, s.chunks, s.mem, h.chunks, a) && Live(h.chunks) == Live(s.chunks) - {a}
            && (if s.chunks[a].pinuse then h.hole == a && h.holeSize == s.chunks[a].size
                else h.hole == a - W(s.mem, a) && h.holeSize == W(s.mem, a) + s.chunks[a].size)
    ensures SizesAgree(s) && s.BinsOK()
  {
    hide *;
    UnfoldLoose(s, x);
    UnfoldCore(s);
    FreeRegionOK(s.mem, HeapOf(s), a);
    LiveFreed(s.mem, HeapOf(s), a);
    BinnedBeforeDef(s, a, x);
    RegionBooks(s.mem, HeapOf(s), s.own, s.dv, s.dvSize, x, a);
  }

  lemma BinnedBeforeDef(s: KmState, a: int, x: int)
    requires a in s.chunks
    ensures BinnedBefore(s, a, x) <==> x == if s.chunks[a].pinuse || a - W(s.mem, a) == s.dv then 0 else a - W(s.mem, a)
  {
  }

  lemma RegionBooks(m: Mem, h: Heap, own: map<int, nat>, dv: int, dvSize: nat, x: int, a: int)
    requires HeapOK(m, h) && h.holeSize == 0 && a in h.chunks && h.chunks[a].used
    requires OwnFree(own, h.chunks) && BinnedBut(own, h.chunks, dv, x) && VictimOK(h.chunks, dv, dvSize)
    requires x == if h.chunks[a].pinuse || a - W(m, a) == dv then 0 else a - W(m, a)
    ensures var h' := FreeRegion(m, h, a);
            && h' == Heap(h'.chunks, h.top, h.topSize, h.lo, h.hi, h'.hole, h'.holeSize)
            && h'.holeSize >= MIN_CHUNK > 0 && 0 !in h'.chunks
            && OwnFree(own, h'.chunks) && BinnedBut(own, h'.chunks, dv, 0) && (dv == h'.hole || VictimOK(h'.chunks, dv, dvSize))
            && (if h.chunks[a].pinuse then h'.hole == a && h'.holeSize == h.chunks[a].size
                else h'.hole == a - W(m, a) && h'.holeSize == W(m, a) + h.chunks[a].size)
  {
    ChunkFacts(h, a);
    NoChunkAtZero(h);
    if !h.chunks[a].pinuse {
      PrevChunk(m, h, a);
    }
    hide Tiled, Written;
  }

  lemma FoldOpened(s: KmState, first: int, size: nat)
    requires s.BinsOK() && OwnFree(s.own, s.chunks) && size > 0 && BinnedBut(s.own, s.chunks, s.dv, 0)
    requires HeapOK(s.mem, Heap(s.chunks, s.top, s.topSize, s.heapStart, s.heapStart + s.heapSize, first, size))
    requires SizesAgree(s) && (s.dv == first || VictimOK(s.chunks, s.dv, s.dvSize))
    ensures Opened(s, s.mem, first, size)
  {
  }

  /** The words around a chunk are no payload of a binned chunk. */
  lemma WordsKept(s: KmState, m: Mem, own: map<int, nat>, a: int)
    requires HeapOK(m, HeapOf(s)) && OwnFree(own, s.chunks) && KeptOutside(m, s.mem, own) && a in s.chunks
    requires a in m && a + HEADER in m
    ensures a in s.mem && s.mem[a] == m[a] && a + HEADER in s.mem && s.mem[a + HEADER] == m[a + HEADER]
  {
    OutsideChunks(HeapOf(s), own, a);
  }

  lemma PointerIs(s: KmState, ptr: int)
    requires Pointer(s, ptr) && ptr != 0 && AddressOK(s, ptr - PAYLOAD)
    ensures ptr - PAYLOAD in s.chunks || (ptr - PAYLOAD + HEADER in s.mem && !InUse(s.mem[ptr - PAYLOAD + HEADER]))
  {
  }

  lemma LiveIs(cs: ChunkMap, a: int)
    ensures a in Live(cs) <==> a in cs && cs[a].used
  {
  }

  lemma PointerCases(s: KmState, ptr: int)
    requires Pointer(s, ptr) && ptr != 0 && AddressOK(s, ptr - PAYLOAD) && Valid(s)
    ensures ptr - PAYLOAD + HEADER in s.mem
    ensures InUse(s.mem[ptr - PAYLOAD + HEADER]) <==> ptr - PAYLOAD in Live(s.chunks)
    ensures ptr - PAYLOAD in Live(s.chunks) ==> ptr - PAYLOAD in s.chunks && s.chunks[ptr - PAYLOAD].used
  {
    hide *;
    PointerIs(s, ptr);
    LiveIs(s.chunks, ptr - PAYLOAD);
    if ptr - PAYLOAD in s.chunks {
      ValidIsLoose(s);
      ChunkWords(s, 0, ptr - PAYLOAD);
    }
  }

  lemma LiveInHeap(s: KmState, a: int)
    requires Valid(s) && a in Live(s.chunks)
    ensures AddressOK(s, a) && a > 0
  {
    ChunkInHeap(s, a);
    ChunkFacts(HeapOf(s), a);
  }

  /** A binned chunk leaves its bin because the chunk behind it is freed. */
  method Detach(s: KmState, prev: int)
    requires Valid(s) && prev in s.chunks && !s.chunks[prev].used && prev != s.dv
    modifies s`mem, s`links, s`own, s`ring, s`shape, s`sbin, s`sbinmap, s`tbin, s`tbinmap
    ensures Loose(s, prev) && LiveKept(old(s.mem), s.chunks, s.mem, s.chunks, 0)
    ensures forall a :: a in s.chunks && a in old(s.mem) && a + HEADER in old(s.mem) ==>
              a in s.mem && s.mem[a] == old(s.mem)[a] && a + HEADER in s.mem && s.mem[a + HEADER] == old(s.mem)[a + HEADER]
  {
    hide *;
    ghost var m, own := s.mem, s.own;
    ValidIsLoose(s);
    UnfoldLoose(s, 0);
    UnfoldCore(s);
    NoChunkAtZero(HeapOf(s));
    FreeIsBinned(own, s.chunks, s.dv, prev);
    UnbinChunk(s, prev);
    AfterUnbin(s, m, own, prev);
    forall a | a in s.chunks && a in m && a + HEADER in m
      ensures a in s.mem && s.mem[a] == m[a] && a + HEADER in s.mem && s.mem[a + HEADER] == m[a + HEADER]
    {
      WordsKept(s, m, own, a);
    }
  }

  lemma FreeIsBinned(own: map<int, nat>, cs: ChunkMap, dv: int, x: int)
    requires BinnedBut(own, cs, dv, 0) && x in cs && !cs[x].used && x != dv && 0 !in cs
    ensures x in own
  {
  }

  lemma RegionPlace(m: Mem, h: Heap, a: int)
    requires HeapOK(m, h) && a in h.chunks
    ensures a in m || h.chunks[a].pinuse
    ensures BeginsAt(h.chunks, a, if h.chunks[a].pinuse then a else a - W(m, a))
    ensures (if h.chunks[a].pinuse then a else a - W(m, a)) <= a
  {
    if !h.chunks[a].pinuse {
      PrevChunk(m, h, a);
    }
    hide HeapOK;
  }

  lemma RegionNext(m: Mem, h: Heap, a: int, first: int)
    requires a in h.chunks && h.chunks[a].size >= MIN_CHUNK && first <= a
    requires first == if h.chunks[a].pinuse then a else a - W(m, a)
    ensures var next, cs := a + h.chunks[a].size, FreeRegion(m, h, a).chunks;
            (next in cs <==> next in h.chunks) && (next in cs && next in h.chunks ==> cs[next] == h.chunks[next])
  {
  }

  /** The part of kfree that joins the chunk with a free chunk in front of it. */
  method OpenChunk(s: KmState, chunk: int) returns (freePtr: int, freeSize: nat, next: int)
    requires Valid(s) && chunk in s.chunks && s.chunks[chunk].used
    modifies s`mem, s`chunks, s`links, s`own, s`ring, s`shape, s`sbin, s`sbinmap, s`tbin, s`tbinmap
    ensures Opened(s, s.mem, freePtr, freeSize) && next == freePtr + freeSize && freeSize >= MIN_CHUNK
    ensures LiveKept(old(s.mem), old(s.chunks), s.mem, s.chunks, chunk) && Live(s.chunks) == Live(old(s.chunks)) - {chunk}
    ensures 0 !in old(s.chunks) && 0 !in s.chunks && next == chunk + old(s.chunks)[chunk].size
    ensures freePtr <= chunk && BeginsAt(old(s.chunks), chunk, freePtr) && (next in s.chunks <==> next in old(s.chunks))
    ensures next in s.chunks && next in old(s.chunks) ==> s.chunks[next] == old(s.chunks)[next]
  {
    hide *;
    ValidIsLoose(s);
    ValidHeap(s);
    RegionPlace(s.mem, HeapOf(s), chunk);
    PrevWord(s.mem, chunk);
    ChunkWords(s, 0, chunk);
    ghost var m0, cs, x := s.mem, s.chunks, 0;
    LiveSame(m0, cs);
    freePtr, freeSize := chunk, SizeOf(s.mem[chunk + HEADER]);
    if !PrevInUse(s.mem[chunk + HEADER]) {
      var csize := s.mem[chunk];
      var prev := chunk - csize;
      if !AddressOK(s, prev) || SizeOf(s.mem[prev + HEADER]) != csize || InUse(s.mem[prev + HEADER]) {
        assert false;
      }
      freePtr := prev;
      freeSize := freeSize + csize;
      if s.dv != prev {
        Detach(s, prev);
        x := prev;
      }
    }
    ghost var m1 := s.mem;
    next := chunk + SizeOf(s.mem[chunk + HEADER]);
    if !AddressOK(s, next) {
      assert false;
    }
    BinnedBeforeDef(s, chunk, x);
    PrevWord(s.mem, chunk);
    OpenRegion(s, x, chunk);
    HeapOfIs(s);
    RegionNext(s.mem, HeapOf(s), chunk, freePtr);
    s.chunks := FreeRegion(s.mem, HeapOf(s), chunk).chunks;
    FoldOpened(s, freePtr, freeSize);
    LiveTransBut(m0, cs, m1, cs, s.mem, s.chunks, chunk);
  }

  /** The heap's end after chunk a is freed: if the top chunk is behind it, that begins at top now. */
  ghost function FreedEnd(cs: ChunkMap, heapStart: int, e: End, a: int, top: int): End {
    if heapStart != 0 && a in Live(cs) && a + Live(cs)[a] == e.top then JoinedEnd(e, top) else e
  }

  lemma FreedEndIs(cs: ChunkMap, heapStart: int, e: End, a: int, top: int)
    ensures heapStart == 0 || a !in Live(cs) ==> FreedEnd(cs, heapStart, e, a, top) == e
    ensures heapStart != 0 && a in Live(cs) ==>
              a in cs && FreedEnd(cs, heapStart, e, a, top) == if a + cs[a].size == e.top then JoinedEnd(e, top) else e
  {
  }

  /** kfree */
  method KFree(s: KmState, ptr: int)
    requires (s.heapStart == 0 || Valid(s)) && Pointer(s, ptr)
    modifies s`mem, s`chunks, s`links, s`own, s`ring, s`shape, s`sbin, s`sbinmap, s`tbin, s`tbinmap, s`dv, s`dvSize
    modifies s`top, s`topSize, s`heapSize, s.pager, s`aborts
    ensures old(s.heapStart) != 0 ==> Valid(s)
    ensures s.heapStart != 0 && ptr - PAYLOAD in Live(old(s.chunks)) ==>
              && Live(s.chunks) == Live(old(s.chunks)) - {ptr - PAYLOAD} && s.aborts == old(s.aborts)
              && LiveKept(old(s.mem), old(s.chunks), s.mem, s.chunks, ptr - PAYLOAD)
    ensures s.heapStart == 0 || ptr - PAYLOAD !in Live(old(s.chunks)) ==>
              && s.mem == old(s.mem) && s.chunks == old(s.chunks) && s.top == old(s.top)
              && s.own == old(s.own) && s.dv == old(s.dv) && s.dvSize == old(s.dvSize)
              && s.aborts == old(s.aborts) + if s.heapStart == 0 || ptr == 0 then 0 else 1
    ensures s.heapStart != 0 && ptr - PAYLOAD in Live(old(s.chunks)) ==>
              Freed(old(s.chunks), old(s.top), old(s.dv), old(s.dvSize), ptr - PAYLOAD, s.own, s.dv, s.dvSize)
    ensures EndOf(s) == FreedEnd(old(s.chunks), s.heapStart, old(EndOf(s)), ptr - PAYLOAD, s.top)
    ensures ptr == 0 || s.heapStart == 0 ==> unchanged(s) && unchanged(s.pager)
  {
    hide *;
    var chunk := ptr - PAYLOAD;
    ghost var cs0, e := s.chunks, EndOf(s);
    EndIs(s);
    if ptr == 0 || s.heapStart == 0 {
      NullNotLive(s, ptr);
      FreedEndIs(cs0, s.heapStart, e, chunk, s.top);
      return;
    }
    if AddressOK(s, chunk) {
      PointerCases(s, ptr);
    } else if chunk in Live(s.chunks) {
      LiveInHeap(s, chunk);
    }
    if !AddressOK(s, chunk) || !InUse(s.mem[chunk + HEADER]) {
      s.aborts := s.aborts + 1;
      FreedEndIs(cs0, s.heapStart, e, chunk, s.top);
      return;
    }
    ValidIsLoose(s);
    ChunkWords(s, 0, chunk);
    ghost var m0, cs := s.mem, s.chunks;
    var freePtr, freeSize, next := OpenChunk(s, chunk);
    ghost var m1, cs1 := s.mem, s.chunks;
    MergeFreeChunks(s, freePtr, freeSize, next);
    FreedBy(cs, cs1, old(s.top), old(s.dv), old(s.dvSize), chunk, freePtr, s.own, s.dv, s.dvSize);
    LiveTransBut(m0, cs, m1, cs1, s.mem, s.chunks, chunk);
    FreedEndIs(cs0, s.heapStart, e, chunk, s.top);
  }

  lemma NullNotLive(s: KmState, ptr: int)
    requires s.heapStart == 0 || Valid(s)
    ensures s.heapStart != 0 ==> 0 - PAYLOAD !in Live(s.chunks)
  {
    if s.heapStart != 0 && 0 - PAYLOAD in Live(s.chunks) {
      LiveInHeap(s, 0 - PAYLOAD);
    }
  }

  /** LiveKept composes, also when one of the steps says more. */
  lemma LiveTransBut(m: Mem, cs: ChunkMap, m': Mem, cs': ChunkMap, m'': Mem, cs'': ChunkMap, x: int)
    requires LiveKept(m, cs, m', cs', x) || LiveKept(m, cs, m', cs', 0)
    requires LiveKept(m', cs', m'', cs'', x) || LiveKept(m', cs', m'', cs'', 0)
    requires x in cs && 0 !in cs && 0 !in cs'
    ensures LiveKept(m, cs, m'', cs'', x)
  {
    forall a | a in cs && cs[a].used && a != x
      ensures a in cs'' && cs''[a].used && cs''[a].size == cs[a].size && BlockKept(m, m'', a, cs[a].size)
    {
      assert BlockKept(m, m', a, cs[a].size);
      assert BlockKept(m', m'', a, cs[a].size);
    }
  }
}
