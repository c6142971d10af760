/** The top chunk: growing, shrinking and allocating from it (grow_top, shrink_top, split_top). */
module Top {
  import opened BinIndex
  import opened FreeLists
  import opened HeapState
  import opened Chunks
  import opened Bins
  import opened HeapOps
  import opened HeapPages
  import opened PagerOps
  import opened PagerViews
  import Paging

  const PAGE: nat := 4096
  const HALF_MAX: nat := 0x7FFF_FFFF

  /** The pager has moved the end of the heap by delta, the allocator's books are still as they were when
      memory was m. */
  ghost predicate EndOpen(s: KmState, m: Mem, delta: int)
    reads s, s.pager
  {
    && HeapOK(m, HeapOf(s)) && OwnFree(s.own, s.chunks)
    && Stored(m, s.own, s.links, s.heapStart, s.heapStart + s.heapSize)
    && ListsOK(s.own, s.links, s.ring, s.shape) && HeadsOK(s.ring, s.shape, s.sbin, s.tbin, s.sbinmap, s.tbinmap)
    && BinnedBut(s.own, s.chunks, s.dv, 0) && VictimOK(s.chunks, s.dv, s.dvSize)
    && 0 <= s.heapSize + delta && SizesOK(s.heapSize + delta, s.pager.heapSize, s.initialHeapSize)
    && PagerOK(s.pager, s.heapStart, s.frames) && delta % PAGE == 0 && 0 < s.topSize + delta
    && EndMoved(m, s.mem, s.heapStart, s.heapStart + s.heapSize, s.heapStart + s.heapSize + delta)
  }

  /** The callback on behalf of the allocator.  The words it has stored are on the heap's pages when the pager is called, and
      what is on them afterwards is what it finds: the words on pages that stay are its own, fresh pages hold anything. */
  method MovePages(p: Pager, words: Mem, increment: int) returns (ok: bool, words': Mem)
    requires p.HeapOK() && Mapped(words, p.heapAddr, p.heapAddr + p.heapSize)
    requires -0x8000_0000 <= increment < 0x8000_0000 && -increment <= p.heapSize
    modifies p
    ensures p.HeapOK() && p.heapAddr == old(p.heapAddr) && p.Account() == old(p.Account())
    ensures p.heapSize == old(p.heapSize) + if ok then increment else 0
    ensures increment > 0 ==> (ok <==> old(p.HeapCanGrow(increment)))
    ensures increment < 0 ==> (ok <==> old(p.heapSize) + increment >= INITIAL_HEAP)
    ensures if ok then EndMoved(words, words', p.heapAddr, p.heapAddr + old(p.heapSize), p.heapAddr + p.heapSize)
            else words' == words
    ensures p.View() == old(p.View()).Moved(increment)
  {
    hide *;
    var lo, hi := p.heapAddr, p.heapAddr + p.heapSize;
    p.HeapIs();
    p.OwnHeap();
    p.CanGrowByIs(increment);
    MappedIs(words, lo, hi);
    OwnFewer(p.entries, p.image, lo, hi, hi - 3);
    p.PutWords(words, lo, hi - 3);
    ghost var m1, entries1 := p.mem, p.entries;
    p.ViewIs();
    p.HeapIs();
    p.OwnHeap();
    p.CanGrowByIs(increment);
    if increment < 0 {
      p.OvershootIs(-increment);
    }
    var r := p.HeapCallback(increment);
    ok, words' := r != -1, words;
    if ok {
      p.HeapIs();
      p.OwnHeap();
      words' := p.Words(lo, hi + increment);
      p.WordsHold(lo, hi + increment);
      if increment < 0 {
        HeapShrunk(m1, p.mem, entries1, p.entries, p.image, Pages((hi + increment - 1) / 4096, (hi - 1) / 4096),
                   words, lo, hi - 3, hi + increment);
      } else {
        GrownIs(entries1, p.entries, (hi - 1) / 4096, (hi + increment - 1) / 4096, increment);
        HeapGrown(m1, p.mem, entries1, p.entries, p.image, words, lo, hi - 3, hi);
      }
      WordsMoved(p.mem, p.entries, words, words', lo, hi, hi + increment);
    }
  }

  lemma MappedIs(words: Mem, lo: int, hi: int)
    ensures Mapped(words, lo, hi) <==> forall v :: lo <= v < hi - 3 ==> v in words
  {
  }

  lemma OwnFewer(entries: map<int, int>, image: set<int>, lo: int, hi: int, hi': int)
    requires OwnPages(entries, image, lo, hi) && hi' <= hi
    ensures OwnPages(entries, image, lo, hi')
  {
  }

  lemma GrownIs(entries: map<int, int>, entries': map<int, int>, lo: int, hi: int, increment: int)
    ensures Grown(entries, entries', lo, hi) ==> forall p :: p in entries ==> p in entries' && entries'[p] == entries[p]
    ensures entries' == entries - Pages(hi, lo) && hi == lo ==> entries' == entries
  {
  }

  lemma HeapGrown(m: Paging.PhysMem, m': Paging.PhysMem, entries: map<int, int>, entries': map<int, int>, image: set<int>, words: Mem,
                  lo: int, hi: int, hi': int)
    requires Holding(m, entries, words, lo, hi) && Paging.PagesKept(m, m', entries - image) && OwnPages(entries, image, lo, hi') && hi <= hi'
    requires forall p :: p in entries ==> p in entries' && entries'[p] == entries[p]
    ensures Holding(m', entries', words, lo, hi)
  {
    hide Holding, Paging.PagesKept;
    HoldingKept(m, m', entries, entries', entries - image, words, lo, hi, hi');
  }

  lemma HeapShrunk(m: Paging.PhysMem, m': Paging.PhysMem, entries: map<int, int>, entries': map<int, int>, image: set<int>, gone: set<int>,
                   words: Mem, lo: int, hi: int, hi': int)
    requires Holding(m, entries, words, lo, hi) && Paging.PagesKept(m, m', entries' - image) && OwnPages(entries', image, lo, hi')
    requires entries' == entries - gone
    ensures Holding(m', entries', words, lo, if hi < hi' then hi else hi')
  {
    hide Holding, Paging.PagesKept;
    HoldingKept(m, m', entries, entries', entries' - image, words, lo, hi, hi');
  }

  lemma WordsMoved(m: Paging.PhysMem, entries: map<int, int>, words: Mem, words': Mem, lo: int, hi: int, hi': int)
    requires Mapped(words, lo, hi) && Holding(m, entries, words', lo, hi')
    requires Holding(m, entries, words, lo, if hi - 3 < hi' then hi - 3 else hi')
    ensures EndMoved(words, words', lo, hi, hi')
  {
    forall w | lo <= w < hi'
      ensures w in words' && (w < hi - 3 ==> w in words && words'[w] == words[w])
    {
      assert HoldsAt(m, entries, words', w);
      if w < hi - 3 {
        assert HoldsAt(m, entries, words, w);
      }
    }
  }

  /** sbrk: the pager grows or shrinks the heap by whole pages, or refuses. */
  method Sbrk(s: KmState, increment: int) returns (ok: bool)
    requires Valid(s) && increment % PAGE == 0 && -0x8000_0000 <= increment < 0x8000_0000
    requires increment > 0 || (PAGE - increment <= s.topSize && s.initialHeapSize - increment <= s.heapSize)
    modifies s`mem, s.pager
    ensures ok ==> EndOpen(s, old(s.mem), increment)
    ensures !ok ==> s.mem == old(s.mem) && Valid(s)
    ensures increment > 0 ==> (ok <==> old(s.pager.HeapCanGrow(increment)))
    ensures increment < 0 ==> (ok <==> s.heapSize + increment >= INITIAL_HEAP)
    ensures s.pager.View() == old(s.pager.View()).Moved(increment)
  {
    hide *;
    BeforeSbrk(s, increment);
    var words;
    ok, words := MovePages(s.pager, s.mem, increment);
    if ok {
      s.mem := words;
      AfterSbrk(s, increment);
      FoldEndOpen(s, old(s.mem), increment);
    } else {
      AfterSbrk(s, 0);
      FoldSizes(s);
      FoldBinsBy(s);
      FoldValid(s);
    }
  }

  lemma BeforeSbrk(s: KmState, increment: int)
    requires Valid(s) && increment % PAGE == 0
    requires increment > 0 || (PAGE - increment <= s.topSize && s.initialHeapSize - increment <= s.heapSize)
    ensures HeapOK(s.mem, HeapOf(s)) && OwnFree(s.own, s.chunks)
    ensures Stored(s.mem, s.own, s.links, s.heapStart, s.heapStart + s.heapSize)
    ensures ListsOK(s.own, s.links, s.ring, s.shape) && HeadsOK(s.ring, s.shape, s.sbin, s.tbin, s.sbinmap, s.tbinmap)
    ensures BinnedBut(s.own, s.chunks, s.dv, 0) && VictimOK(s.chunks, s.dv, s.dvSize)
    ensures 0 < s.topSize + increment && s.initialHeapSize <= s.heapSize + increment
    ensures s.pager.HeapOK() && s.pager.heapAddr == s.heapStart && s.pager.Account() == s.frames && |s.frames| <= MEMORY_FRAMES
    ensures s.heapSize % PAGE == 0 && s.initialHeapSize % PAGE == 0 && s.pager.heapSize == s.heapSize
    ensures (s.heapSize + increment) % PAGE == 0 && s.initialHeapSize <= s.heapSize
    ensures HeapOf(s) == Heap(s.chunks, s.top, s.topSize, s.heapStart, s.heapStart + s.heapSize, 0, 0)
    ensures Mapped(s.mem, s.heapStart, s.heapStart + s.heapSize) && -increment <= s.heapSize
  {
    hide BinnedBut, VictimOK, Tiled, OwnFree, EndMoved, Pager.HeapOK, Pager.Account;
    assert Mapped(s.mem, s.heapStart, s.heapStart + s.heapSize);
  }

  /** The pager's heap, whole pages, is no larger than its memory. */
  lemma PagerBound(p: Pager, addr: int, frames: set<int>)
    requires PagerOK(p, addr, frames) && p.heapSize % PAGE == 0
    ensures p.heapSize <= SIZE_LIMIT
  {
    p.HeapFits();
    p.HeapIs();
    assert p.heapSize == PAGE * (p.heapSize / PAGE) && p.heapAddr == PAGE * (p.heapAddr / PAGE);
    hide Pager.HeapOK, Pager.Account;
  }

  lemma AfterSbrk(s: KmState, increment: int)
    requires s.pager.HeapOK() && s.pager.heapAddr == s.heapStart && s.pager.Account() == s.frames && |s.frames| <= MEMORY_FRAMES
    requires s.pager.heapSize == s.heapSize + increment && (s.heapSize + increment) % PAGE == 0
    requires s.initialHeapSize <= s.heapSize + increment && s.initialHeapSize % PAGE == 0
    ensures SizesOK(s.heapSize + increment, s.pager.heapSize, s.initialHeapSize) && PagerOK(s.pager, s.heapStart, s.frames)
  {
    hide Pager.HeapOK, Pager.Account;
    PagerBound(s.pager, s.heapStart, s.frames);
  }

  lemma FoldSizes(s: KmState)
    requires SizesOK(s.heapSize, s.pager.heapSize, s.initialHeapSize) && PagerOK(s.pager, s.heapStart, s.frames)
    ensures SizesAgree(s)
  {
  }

  lemma FoldEndOpen(s: KmState, m: Mem, delta: int)
    requires HeapOK(m, HeapOf(s)) && OwnFree(s.own, s.chunks)
    requires BinnedBut(s.own, s.chunks, s.dv, 0) && VictimOK(s.chunks, s.dv, s.dvSize)
    requires Stored(m, s.own, s.links, s.heapStart, s.heapStart + s.heapSize)
    requires ListsOK(s.own, s.links, s.ring, s.shape) && HeadsOK(s.ring, s.shape, s.sbin, s.tbin, s.sbinmap, s.tbinmap)
    requires 0 <= s.heapSize + delta && SizesOK(s.heapSize + delta, s.pager.heapSize, s.initialHeapSize)
    requires PagerOK(s.pager, s.heapStart, s.frames)
    requires delta % PAGE == 0 && 0 < s.topSize + delta
    requires EndMoved(m, s.mem, s.heapStart, s.heapStart + s.heapSize, s.heapStart + s.heapSize + delta)
    ensures EndOpen(s, m, delta)
  {
  }

  lemma StoredMoved(m: Mem, m': Mem, h: Heap, own: map<int, nat>, k: Links, topSize: nat)
    requires HeapOK(m, h) && OwnFree(own, h.chunks) && Stored(m, own, k, h.lo, h.hi) && h.holeSize == 0
    requires EndMoved(m, m', h.lo, h.hi, h.hi + topSize - h.topSize)
    ensures Stored(m', own, k, h.lo, h.hi + topSize - h.topSize)
  {
    hide ListsOK, Disjoint;
    var hi := h.hi + topSize - h.topSize;
    forall x | x in own
      ensures SizeOK(own[x]) && Placed(x, own[x], h.lo, hi)
    {
      ChunkFacts(h, x);
    }
    forall x, w | x in own && x + HEADER <= w < x + own[x]
      ensures W(m', w) == W(m, w)
    {
      ChunkFacts(h, x);
    }
    assert Mapped(m', h.lo, hi);
    var lower := if hi < h.hi then hi else h.hi;
    assert Stored(m, own, k, h.lo, lower) by {
      forall x | x in own
        ensures Placed(x, own[x], h.lo, lower)
      {
        ChunkFacts(h, x);
      }
    }
    StoredFrame(m, m', own, k, h.lo, lower);
  }

  lemma SizeMultiple(size: nat, brk: nat, initial: nat)
    requires SizesOK(size, brk, initial)
    ensures size % 4096 == 0 && size <= SIZE_LIMIT
  {
  }

  lemma BeforeSettle(s: KmState, m: Mem, delta: int)
    requires EndOpen(s, m, delta)
    ensures 0 < s.topSize + delta && 0 <= s.heapSize + delta && OwnFree(s.own, s.chunks)
    ensures Stored(s.mem, s.own, s.links, s.heapStart, s.heapStart + s.heapSize + delta)
    ensures ListsOK(s.own, s.links, s.ring, s.shape) && HeadsOK(s.ring, s.shape, s.sbin, s.tbin, s.sbinmap, s.tbinmap)
    ensures BinnedBut(s.own, s.chunks, s.dv, 0) && VictimOK(s.chunks, s.dv, s.dvSize)
    ensures SizesOK(s.heapSize + delta, s.pager.heapSize, s.initialHeapSize) && PagerOK(s.pager, s.heapStart, s.frames)
  {
    hide Tiled, Written, ListsOK, HeadsOK, EndMoved, BinnedBut, VictimOK, Stored, OwnFree, Clear, SizesOK, PagerOK;
    StoredMoved(m, s.mem, HeapOf(s), s.own, s.links, s.topSize + delta);
  }

  lemma SettledWords(s: KmState, m: Mem, delta: int)
    requires EndOpen(s, m, delta)
    ensures s.topSize + delta > 0 && s.heapSize + delta > 0
    ensures var dummy, last := s.top + (s.topSize + delta), s.heapStart + s.heapSize + delta - 4;
            && Clear(s.own, s.top + HEADER) && Clear(s.own, dummy) && Clear(s.own, dummy + HEADER)
            && s.heapStart <= s.top + HEADER <= last && s.heapStart <= dummy <= dummy + HEADER <= last
            && var m' := s.mem[s.top + HEADER := s.topSize + delta + PINUSE][dummy := s.topSize + delta][dummy + HEADER := 0];
            && HeapOK(m', Heap(s.chunks, s.top, s.topSize + delta, s.heapStart, s.heapStart + s.heapSize + delta, 0, 0))
            && LiveKept(m, s.chunks, m', s.chunks, 0)
  {
    hide Tiled, Written, ListsOK, HeadsOK, EndMoved, BinnedBut, VictimOK, Stored, OwnFree, Clear, LiveKept, SizesOK, PagerOK;
    var h := HeapOf(s);
    BoundsOf(h);
    SizeMultiple(s.heapSize + delta, s.pager.heapSize, s.initialHeapSize);
    TopIsClear(h, s.own);
    MoveEndOK(m, s.mem, h, s.topSize + delta);
  }

  /** The books follow: sizes, the top chunk's header and footer, and the dummy header behind it. */
  method SettleTop(s: KmState, delta: int, ghost m: Mem)
    requires EndOpen(s, m, delta)
    modifies s`mem, s`heapSize, s`topSize
    ensures Valid(s) && s.heapSize == old(s.heapSize) + delta && s.topSize == old(s.topSize) + delta
    ensures LiveKept(m, s.chunks, s.mem, s.chunks, 0)
  {
    hide *;
    BeforeSettle(s, m, delta);
    SettledWords(s, m, delta);
    s.heapSize := s.heapSize + delta;
    s.topSize := s.topSize + delta;
    FoldBinsBy(s);
    s.Poke(s.top + HEADER, s.topSize + PINUSE);
    var dummy := s.top + s.topSize;
    s.Poke(dummy, s.topSize);
    s.Poke(dummy + HEADER, 0);
    FoldValid(s);
  }

  lemma FoldBinsBy(s: KmState)
    requires Stored(s.mem, s.own, s.links, s.heapStart, s.heapStart + s.heapSize)
    requires ListsOK(s.own, s.links, s.ring, s.shape)
    requires HeadsOK(s.ring, s.shape, s.sbin, s.tbin, s.sbinmap, s.tbinmap)
    ensures s.BinsOK()
  {
  }

  /** That many bytes in whole pages. */
  function InPages(n: nat): nat {
    (n + (PAGE - 1)) / PAGE * PAGE
  }

  /** It is the one multiple of the page size that is enough and less than a page more. */
  lemma InPagesExact(n: nat, k: nat)
    ensures InPages(n) == k <==> k % 4096 == 0 && n <= k < n + 4096
  {
    assert InPages(n) % PAGE == 0 && n <= InPages(n) < n + PAGE;
    hide InPages;
  }

  /** The pager can add that many bytes to the heap, in whole pages, and the number fits the call's signed argument. */
  ghost predicate CanExtend(p: Pager, n: nat)
    reads p
  {
    CanExtendBy(p.View(), n)
  }

  ghost predicate CanExtendBy(v: PagerView, n: nat) {
    InPages(n) <= HALF_MAX && v.CanGrowBy(InPages(n))
  }

  /** How many bytes that are: k, if k is the whole number of pages that holds n bytes and less than a page more. */
  lemma ExtendExact(v: PagerView, n: nat, k: nat)
    requires k % 4096 == 0 && n <= k < n + 4096
    ensures CanExtendBy(v, n) <==> k <= 0x7FFF_FFFF && v.CanGrowBy(k)
  {
    hide InPages;
    InPagesExact(n, k);
  }

  /** The end of the heap: the top chunk, the heap's size and what it was at first, and the pager. */
  datatype End = End(top: int, topSize: nat, heapSize: nat, initial: nat, pager: PagerView)

  ghost function EndOf(s: KmState): End
    reads s`top, s`topSize, s`heapSize, s`initialHeapSize, s.pager
  {
    End(s.top, s.topSize, s.heapSize, s.initialHeapSize, s.pager.View())
  }

  lemma EndIs(s: KmState)
    ensures EndOf(s) == End(s.top, s.topSize, s.heapSize, s.initialHeapSize, s.pager.View())
  {
  }

  /** The end after grow_top, for n bytes. */
  ghost function Extended(e: End, n: nat): End {
    var more := InPages(n);
    if more > HALF_MAX then e
    else if e.pager.CanGrowBy(more) then
      e.(topSize := e.topSize + more, heapSize := e.heapSize + more, pager := e.pager.Moved(more))
    else e.(pager := e.pager.Moved(more))
  }

  lemma ExtendedIs(e: End, n: nat)
    ensures InPages(n) > HALF_MAX ==> Extended(e, n) == e
    ensures InPages(n) <= HALF_MAX ==>
              Extended(e, n) == if e.pager.CanGrowBy(InPages(n))
                                then End(e.top, e.topSize + InPages(n), e.heapSize + InPages(n), e.initial, e.pager.Moved(InPages(n)))
                                else e.(pager := e.pager.Moved(InPages(n)))
  {
  }

  /** grow_top: the top chunk grows by the increment rounded up to pages, exactly if the pager can add them. */
  method GrowTop(s: KmState, increment: nat) returns (ok: bool)
    requires Valid(s) && 0 < increment && increment + PAGE - 1 < SIZE_T_LIMIT
    modifies s`mem, s`heapSize, s`topSize, s.pager
    ensures Valid(s) && LiveKept(old(s.mem), s.chunks, s.mem, s.chunks, 0)
    ensures s.heapSize - old(s.heapSize) == s.topSize - old(s.topSize)
    ensures if ok then old(s.topSize) + increment <= s.topSize < old(s.topSize) + increment + 4096
            else s.mem == old(s.mem) && s.heapSize == old(s.heapSize)
    ensures (s.heapSize - old(s.heapSize)) % 4096 == 0
    ensures ok <==> old(CanExtend(s.pager, increment))
    ensures EndOf(s) == Extended(old(EndOf(s)), increment)
  {
    hide Valid, LiveKept, EndOpen, MapMatches, SmallHeads, TreeHeads, HeadsOK, ListsOK, Stored, Extended;
    LiveSame(s.mem, s.chunks);
    ExtendedIs(EndOf(s), increment);
    var rounded := InPages(increment);
    if rounded > HALF_MAX {
      return false;
    }
    ok := Sbrk(s, rounded);
    if ok {
      SettleTop(s, rounded, old(s.mem));
    }
  }

  /** The heap size shrink_top aims at: a page of top is left, and the initial size, in whole pages. */
  function ShrunkSize(heapSize: nat, topSize: nat, initial: nat): nat
    requires PAGE < topSize
  {
    var wanted := if heapSize + PAGE < initial + topSize then initial else heapSize + PAGE - topSize;
    InPages(wanted)
  }

  lemma ShrunkInRange(heapSize: nat, topSize: nat, initial: nat)
    requires PAGE < topSize && initial <= heapSize && heapSize % PAGE == 0 && initial % PAGE == 0
    ensures var size := ShrunkSize(heapSize, topSize, initial);
            && initial <= size <= heapSize && (heapSize - size) % PAGE == 0 && heapSize - size <= topSize - PAGE
            && (size == initial || topSize - (heapSize - size) < 2 * PAGE)
  {
  }

  /** There is more than a page of top chunk, and the pager's smallest heap stays. */
  ghost predicate Shrinks(s: KmState)
    reads s`heapSize, s`topSize, s`initialHeapSize
  {
    PAGE < s.topSize && ShrunkSize(s.heapSize, s.topSize, s.initialHeapSize) >= INITIAL_HEAP
  }

  /** The end after shrink_top. */
  ghost function Shrunk(e: End): End {
    if PAGE < e.topSize && ShrunkSize(e.heapSize, e.topSize, e.initial) >= INITIAL_HEAP then
      var less := e.heapSize - ShrunkSize(e.heapSize, e.topSize, e.initial);
      if less <= e.topSize && less <= e.heapSize then
        e.(topSize := e.topSize - less, heapSize := e.heapSize - less, pager := e.pager.Moved(0 - less))
      else e
    else e
  }

  lemma HeapLeast(s: KmState)
    requires Valid(s)
    ensures s.heapSize >= INITIAL_HEAP
  {
    hide Core, BinnedBut, VictimOK;
  }

  /** shrink_top: pages the top chunk does not need are offered to the pager.  Each request is a whole number
      of pages, leaves at least a page of top chunk and the initial heap, so the top chunk is never used up. */
  method ShrinkTop(s: KmState)
    requires Valid(s)
    modifies s`mem, s`heapSize, s`topSize, s.pager
    ensures Valid(s) && LiveKept(old(s.mem), s.chunks, s.mem, s.chunks, 0)
    ensures s.heapSize - old(s.heapSize) == s.topSize - old(s.topSize)
    ensures s.heapSize == if old(Shrinks(s)) then ShrunkSize(old(s.heapSize), old(s.topSize), s.initialHeapSize)
                          else old(s.heapSize)
    ensures s.topSize == old(s.topSize) || s.topSize >= PAGE
    ensures old(s.topSize) <= PAGE ==> s.topSize == old(s.topSize)
    ensures EndOf(s) == Shrunk(old(EndOf(s)))
  {
    hide *;
    LiveSame(s.mem, s.chunks);
    SizesFacts(s);
    HeapLeast(s);
    EndIs(s);
    ShrunkIs(s);
    if s.topSize > PAGE && s.heapSize >= s.initialHeapSize {
      ShrunkInRange(s.heapSize, s.topSize, s.initialHeapSize);
      var decrease := s.topSize - PAGE;
      var newSize := s.heapSize - decrease;
      if newSize < s.initialHeapSize {
        newSize := s.initialHeapSize;
      }
      newSize := InPages(newSize);
      decrease := s.heapSize - newSize;
      if decrease > 0 {
        if decrease > HALF_MAX {
          decrease := 0x7FFF_F000;
        }
        var ok := Sbrk(s, -decrease);
        if ok {
          SettleTop(s, -decrease, old(s.mem));
        }
        EndIs(s);
      }
    }
  }

  lemma NotMoved(v: PagerView, d: int)
    requires d == 0 || (d < 0 <= v.heapSize + d < INITIAL_HEAP)
    ensures v.Moved(d) == v
  {
  }

  lemma ShrunkIs(s: KmState)
    requires s.initialHeapSize <= s.heapSize <= SIZE_LIMIT && s.heapSize % PAGE == 0 && s.initialHeapSize % PAGE == 0
    requires s.heapSize >= INITIAL_HEAP && s.pager.heapSize == s.heapSize
    ensures SIZE_LIMIT < HALF_MAX == 0x7FFF_FFFF && PAGE == 4096
    ensures s.topSize <= PAGE ==> !Shrinks(s) && Shrunk(EndOf(s)) == EndOf(s)
    ensures PAGE < s.topSize ==>
              var size := ShrunkSize(s.heapSize, s.topSize, s.initialHeapSize);
              && size == InPages(if s.heapSize + PAGE < s.initialHeapSize + s.topSize then s.initialHeapSize
                                 else s.heapSize + PAGE - s.topSize)
              && size <= s.heapSize && s.heapSize - size <= s.topSize
              && (size < INITIAL_HEAP ==> s.pager.View().Moved(0 - (s.heapSize - size)) == s.pager.View())
              && (Shrinks(s) <==> size >= INITIAL_HEAP) && (size == s.heapSize ==> Shrunk(EndOf(s)) == EndOf(s))
              && Shrunk(EndOf(s)) == if size >= INITIAL_HEAP
                                     then End(s.top, s.topSize - (s.heapSize - size), size, s.initialHeapSize,
                                              s.pager.View().Moved(0 - (s.heapSize - size)))
                                     else EndOf(s)
  {
    if PAGE < s.topSize {
      var size := ShrunkSize(s.heapSize, s.topSize, s.initialHeapSize);
      ShrunkInRange(s.heapSize, s.topSize, s.initialHeapSize);
      NotMoved(s.pager.View(), 0);
      if size < INITIAL_HEAP {
        NotMoved(s.pager.View(), 0 - (s.heapSize - size));
      }
    }
    hide InPages, PagerView.Moved;
  }

  lemma SizesFacts(s: KmState)
    requires Valid(s)
    ensures s.initialHeapSize <= s.heapSize <= SIZE_LIMIT && s.heapSize % PAGE == 0 && s.initialHeapSize % PAGE == 0
    ensures s.topSize + 8 <= s.heapSize == s.pager.heapSize && s.topSize % 8 == 0
  {
    hide BinnedBut, VictimOK, Written, ListsOK;
    BoundsOf(HeapOf(s));
  }

  // ----- split_top

  lemma BeforeSplitTop(s: KmState, n: nat)
    requires Valid(s) && MIN_CHUNK <= n <= s.topSize && n % 8 == 0
    ensures var h, m' := HeapOf(s), UseTopWords(s.mem, HeapOf(s), n);
            && h.topSize == s.topSize && s.BinsOK() && s.top > 0
            && Clear(s.own, s.top + HEADER) && Clear(s.own, s.top + n + HEADER) && Clear(s.own, s.top + s.topSize)
            && s.heapStart <= s.top + HEADER <= s.top + n + HEADER <= s.heapStart + s.heapSize - 4
            && s.heapStart <= s.top + s.topSize <= s.heapStart + s.heapSize - 4
            && HeapOK(m', UseTop(h, n)) && OwnFree(s.own, UseTop(h, n).chunks)
            && BinnedBut(s.own, UseTop(h, n).chunks, s.dv, 0) && VictimOK(UseTop(h, n).chunks, s.dv, s.dvSize)
            && Granted(s.mem, s.chunks, m', UseTop(h, n).chunks, s.top, n) && SizeAt(UseTop(h, n).chunks, s.top) == n
    ensures SizesAgree(s)
  {
    hide *;
    ValidIsLoose(s);
    UnfoldLoose(s, 0);
    UnfoldCore(s);
    var h := HeapOf(s);
    UseTopOK(s.mem, h, n);
    UseTopPlaces(s.mem, h, s.own, n);
    UseTopBooks(h, s.own, n, s.dv, s.dvSize);
    LiveUseTop(h, n);
    SizeAtLive(s.chunks, UseTop(h, n).chunks, s.top, n);
    GrantedBy(s.mem, s.chunks, UseTopWords(s.mem, h, n), UseTop(h, n).chunks, s.top, n, n);
  }

  lemma TopUsed(m: Mem, s: KmState, n: nat)
    requires n <= s.topSize
    ensures var h, rest, m1 := HeapOf(s), s.topSize - n, m[s.top + HEADER := n + PINUSE + CINUSE];
            && UseTopWords(m, h, n) == (if rest < MIN_CHUNK then m1[s.top + n + HEADER := 0]
                                       else m1[s.top + n + HEADER := rest + PINUSE][s.top + n + rest := rest])
            && UseTop(h, n) == Heap(UseTop(h, n).chunks, s.top + n, if rest < MIN_CHUNK then 0 else rest,
                                    s.heapStart, s.heapStart + s.heapSize, 0, 0)
  {
  }

  lemma UseTopPlaces(m: Mem, h: Heap, own: map<int, nat>, n: nat)
    requires Tiled(h) && OwnFree(own, h.chunks) && MIN_CHUNK <= n <= h.topSize && h.holeSize == 0
    ensures Clear(own, h.top + HEADER) && Clear(own, h.top + n + HEADER) && Clear(own, h.top + h.topSize)
    ensures h.lo <= h.top + HEADER <= h.top + n + HEADER <= h.hi - 4 && h.lo <= h.top + h.topSize <= h.hi - 4
    ensures h.top > 0 && n <= n + MIN_CHUNK
  {
    hide Tiled;
    BoundsOf(h);
    TopIsClear(h, own);
  }

  lemma UseTopBooks(h: Heap, own: map<int, nat>, n: nat, dv: int, dvSize: nat)
    requires Tiled(h) && OwnFree(own, h.chunks) && BinnedBut(own, h.chunks, dv, 0) && VictimOK(h.chunks, dv, dvSize)
    requires n <= h.topSize && h.top !in h.chunks
    ensures OwnFree(own, UseTop(h, n).chunks) && BinnedBut(own, UseTop(h, n).chunks, dv, 0)
    ensures VictimOK(UseTop(h, n).chunks, dv, dvSize)
  {
    hide Tiled;
  }

  /** The end after n bytes are cut from the top chunk: a rest of less than a chunk is dropped. */
  ghost function Cut(e: End, n: nat): End
    requires n <= e.topSize
  {
    e.(top := e.top + n, topSize := if e.topSize - n < MIN_CHUNK then 0 else e.topSize - n)
  }

  /** The end after split_top. */
  ghost function SplitEnd(e: End, n: nat, allowExpand: bool): End {
    if n <= e.topSize then Cut(e, n)
    else if !allowExpand then e
    else
      var grown := Extended(e, n - e.topSize);
      if n <= grown.topSize then Cut(grown, n) else grown
  }

  lemma SplitEndIs(e: End, n: nat, allowExpand: bool)
    ensures n <= e.topSize ==> SplitEnd(e, n, allowExpand) == Cut(e, n)
    ensures n > e.topSize && !allowExpand ==> SplitEnd(e, n, allowExpand) == e
    ensures n > e.topSize && allowExpand ==>
              var grown := Extended(e, n - e.topSize);
              SplitEnd(e, n, allowExpand) == if n <= grown.topSize then Cut(grown, n) else grown
  {
  }

  lemma CutIs(e: End, n: nat)
    requires n <= e.topSize
    ensures Cut(e, n) == End(e.top + n, if e.topSize - n < MIN_CHUNK then 0 else e.topSize - n, e.heapSize, e.initial, e.pager)
  {
  }

  /** A block from the top chunk.  When less than a chunk would be left the block still gets n bytes only:
      the rest drops out of the heap's chunks. */
  method CutTop(s: KmState, n: nat) returns (chunk: int)
    requires Valid(s) && MIN_CHUNK <= n <= s.topSize && n % 8 == 0
    modifies s`mem, s`chunks, s`top, s`topSize
    ensures Valid(s) && Granted(old(s.mem), old(s.chunks), s.mem, s.chunks, chunk, n)
    ensures chunk == old(s.top) && s.top == old(s.top) + n && SizeAt(s.chunks, chunk) == n
    ensures s.topSize == if old(s.topSize) - n < MIN_CHUNK then 0 else old(s.topSize) - n
  {
    hide *;
    BeforeSplitTop(s, n);
    TopUsed(s.mem, s, n);
    ghost var h := HeapOf(s);
    chunk := s.top;
    if s.topSize - n < MIN_CHUNK {
      s.Poke(chunk + HEADER, n + PINUSE + CINUSE);
      s.top := chunk + n;
      s.topSize := 0;
      s.Poke(s.top + HEADER, 0);
    } else {
      var splitSize := s.topSize - n;
      s.Poke(chunk + HEADER, n + PINUSE + CINUSE);
      s.top := chunk + n;
      s.Poke(s.top + HEADER, splitSize + PINUSE);
      s.topSize := splitSize;
      s.Poke(s.top + splitSize, splitSize);
    }
    s.chunks := UseTop(h, n).chunks;
    FoldValid(s);
  }

  /** The heap is as large as before, or has grown by the least whole number of pages with which the top chunk, of topSize bytes,
      holds n bytes. */
  ghost predicate GrownFor(topSize: nat, n: nat, heapSize: nat, heapSize': nat) {
    || heapSize' == heapSize
    || (topSize < n && (heapSize' - heapSize) % 4096 == 0 && n - topSize <= heapSize' - heapSize < n - topSize + 4096)
  }

  /** split_top: a block from the top chunk, which grows first if it is too small. */
  method SplitTop(s: KmState, n: nat, allowExpand: bool) returns (r: int)
    requires Valid(s) && MIN_CHUNK <= n && n % 8 == 0 && n + PAGE - 1 < SIZE_T_LIMIT
    modifies s`mem, s`chunks, s`heapSize, s`top, s`topSize, s.pager
    ensures Valid(s) && Answer(old(s.mem), old(s.chunks), s.mem, s.chunks, r, n)
    ensures n <= old(s.topSize) || !allowExpand || r == 0 ==> s.heapSize == old(s.heapSize)
    ensures GrownFor(old(s.topSize), n, old(s.heapSize), s.heapSize)
    ensures r == 0 <==> old(s.topSize) < n && !(allowExpand && old(CanExtend(s.pager, n - s.topSize)))
    ensures r != 0 ==> r == old(s.top) + PAYLOAD && s.top == old(s.top) + n && SizeAt(s.chunks, r - PAYLOAD) == n
    ensures r != 0 && s.heapSize == old(s.heapSize) ==>
              s.topSize == if old(s.topSize) - n < MIN_CHUNK then 0 else old(s.topSize) - n
    ensures EndOf(s) == SplitEnd(old(EndOf(s)), n, allowExpand)
  {
    hide Valid, Answer, Granted, LiveKept, CanExtend, Extended, SplitEnd, Cut;
    SplitEndIs(EndOf(s), n, allowExpand);
    ghost var m0, cs := s.mem, s.chunks;
    LiveSame(m0, cs);
    if s.topSize < n {
      var grown := false;
      if allowExpand {
        grown := GrowTop(s, n - s.topSize);
      }
      if !grown {
        AnswerNull(m0, cs, s.mem, n);
        return 0;
      }
    }
    ghost var m1 := s.mem;
    CutIs(EndOf(s), n);
    var chunk := CutTop(s, n);
    AnswerBlock(m0, m1, cs, s.mem, s.chunks, chunk, n);
    r := chunk + PAYLOAD;
  }
}
