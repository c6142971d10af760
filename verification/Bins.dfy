/** Putting chunks into their bins and taking them out (bin_chunk, unbin_chunk). */
module Bins {
  import opened Bits
  import opened BinIndex
  import opened Trie
  import opened FreeLists
  import opened HeapState
  import opened TreeBins
  import opened TreeSearch
  import opened Sequences
  import DlList

  // ----- bitmaps

  /** bitmap |= 1 << index, when the bin has been filled. */
  lemma MarkFull(bins: seq<int>, bins': seq<int>, bitmap: nat, index: nat)
    requires MapMatches(bins, bitmap) && index < NBINS && |bins'| == NBINS && bins'[index] != 0
    requires forall i :: 0 <= i < NBINS && i != index ==> bins'[i] == bins[i]
    ensures MapMatches(bins', SetBit(bitmap, index))
  {
    forall i | i >= 0
      ensures Bit(SetBit(bitmap, index), i) <==> i == index || Bit(bitmap, i)
    {
      BitOfSetBit(bitmap, index, i);
    }
  }

  /** if(bins[index] == NULL) bitmap &= ~(1 << index) */
  function Unmark(bins: seq<int>, bitmap: nat, index: nat): nat
    requires index < |bins|
  {
    if bins[index] == 0 then ClearBit(bitmap, index) else bitmap
  }

  lemma MarkEmptied(bins: seq<int>, bins': seq<int>, bitmap: nat, index: nat)
    requires MapMatches(bins, bitmap) && index < NBINS && |bins'| == NBINS && (bins[index] != 0 || bins'[index] == 0)
    requires forall i :: 0 <= i < NBINS && i != index ==> bins'[i] == bins[i]
    ensures MapMatches(bins', Unmark(bins', bitmap, index))
  {
    forall i | i >= 0
      ensures Bit(ClearBit(bitmap, index), i) <==> i != index && Bit(bitmap, i)
    {
      BitOfClearBit(bitmap, index, i);
    }
  }

  // ----- a chunk enters the free lists

  /** Whatever the fields of x hold in memory, taken as its links. */
  function LinksFromMemory(k: Links, m: Mem, x: int): Links {
    Put(Put(Put(Put(Put(k, x, Next, W(m, x + 8)), x, Prev, W(m, x + 12)), x, Left, W(m, x + 16)),
      x, Right, W(m, x + 20)), x, Parent, W(m, x + 24))
  }

  /** x is a free chunk of size s that could go on a list: aligned, in the heap, clear of the others. */
  ghost predicate Binnable(m: Mem, own: map<int, nat>, lo: int, hi: int, x: int, s: nat) {
    && x !in own && SizeOK(s) && Placed(x, s, lo, hi)
    && W(m, x + HEADER) == s + PINUSE
    && (forall y :: y in own ==> x + s <= y || y + own[y] <= x)
  }

  lemma StoredGrows(m: Mem, own: map<int, nat>, k: Links, lo: int, hi: int, x: int, s: nat)
    requires Stored(m, own, k, lo, hi) && Binnable(m, own, lo, hi, x, s)
    requires s >= MIN_LARGE ==> W(m, x + INDEX) == CalcTbin(s)
    ensures Stored(m, own[x := s], LinksFromMemory(k, m, x), lo, hi)
  {
    hide LinksFromMemory;
    var own', k' := own[x := s], LinksFromMemory(k, m, x);
    forall y, f | y in own' && Has(own'[y], f)
      ensures Get(k', y, f) == W(m, y + Offset(f))
    {
      AdoptedLink(k, m, x, y, f);
    }
  }

  lemma AdoptedLink(k: Links, m: Mem, x: int, y: int, f: Field)
    ensures Get(LinksFromMemory(k, m, x), y, f) == if y == x then W(m, x + Offset(f)) else Get(k, y, f)
  {
  }

  lemma IndexWord(m: Mem, own: map<int, nat>, k: Links, lo: int, hi: int, x: int, s: nat, index: int)
    requires Stored(m, own, k, lo, hi) && Binnable(m, own, lo, hi, x, s) && s >= MIN_LARGE
    ensures x + INDEX in m
    ensures Stored(m[x + INDEX := index], own, k, lo, hi) && Binnable(m[x + INDEX := index], own, lo, hi, x, s)
    ensures KeptOutside(m, m[x + INDEX := index], own[x := s])
  {
    var m' := m[x + INDEX := index];
    StoredFrame(m, m', own, k, lo, hi);
    forall w | w in m && Outside(own[x := s], w)
      ensures m'[w] == m[w]
    {
      assert own[x := s][x] == s;
    }
  }

  // ----- small bins

  /** The links of a small bin's head. */
  lemma SmallHead(own: map<int, nat>, k: Links, ring: Rings, t: Shape, sbin: seq<int>, index: nat)
    requires ListsOK(own, k, ring, t) && SmallHeads(ring, sbin) && index < NBINS
    ensures |sbin| == NBINS
    ensures sbin[index] != 0 <==> 8 * index in ring
    ensures sbin[index] != 0 ==> |ring[8 * index]| > 0 && sbin[index] == ring[8 * index][0]
    ensures sbin[index] != 0 ==> sbin[index] in own && own[sbin[index]] == 8 * index
    ensures sbin[index] != 0 ==> Get(k, sbin[index], Prev) in own && Get(k, sbin[index], Next) in own
    ensures sbin[index] != 0 ==> Get(k, sbin[index], Prev) == ring[8 * index][|ring[8 * index]| - 1]
  {
    if 8 * index in ring {
      var xs := ring[8 * index];
      assert RingAt(k, xs) && xs[0] in own;
      assert LinkedAt(k, xs, 0);
      if |xs| > 1 {
        assert xs[1] in own && xs[|xs| - 1] in own;
      }
    }
  }

  function PushLinks(k: Links, x: int, head: int): Links {
    if head != 0 then LinkBetween(k, x, Get(k, head, Prev), head) else LinkAlone(k, x)
  }

  lemma SmallPushed(own: map<int, nat>, k: Links, ring: Rings, t: Shape, sbin: seq<int>, tbin: seq<int>, x: int, s: nat)
    requires ListsOK(own, k, ring, t) && SmallHeads(ring, sbin) && TreeHeads(ring, t, tbin)
    requires x !in own && x > 0 && s < MIN_LARGE && s % 8 == 0
    ensures |sbin| == NBINS && s / 8 < NBINS
    ensures var ring' := ring[s := [x] + if s in ring then ring[s] else []];
            && ListsOK(own[x := s], PushLinks(k, x, sbin[s / 8]), ring', t)
            && SmallHeads(ring', sbin[s / 8 := x]) && TreeHeads(ring', t, tbin)
  {
    SmallHead(own, k, ring, t, sbin, s / 8);
    assert 8 * (s / 8) == s;
    PushSmall(own, k, ring, t, x, s);
    var ring' := ring[s := [x] + if s in ring then ring[s] else []];
    assert forall n :: n in t ==> t[n] != s by {
      ListsLarge(own, k, ring, t);
    }
    assert forall q :: HeadOf(ring', t, q) == HeadOf(ring, t, q);
    hide ListsOK, LinkBetween, LinkAlone;
  }

  lemma ListsLarge(own: map<int, nat>, k: Links, ring: Rings, t: Shape)
    requires ListsOK(own, k, ring, t)
    ensures forall n :: n in t ==> t[n] >= MIN_LARGE
  {
    assert forall n :: n in t ==> Large(t[n]);
  }

  function DropLinks(k: Links, x: int): Links {
    if Get(k, x, Next) == x then k else Bypass(k, Get(k, x, Prev), Get(k, x, Next))
  }

  /** Head of a small bin after chunk x has left it. */
  function DropHeadOf(k: Links, x: int, head: int): int {
    if Get(k, x, Next) == x then 0 else if head == x then Get(k, x, Next) else head
  }

  lemma SmallDropped(own: map<int, nat>, k: Links, ring: Rings, t: Shape, sbin: seq<int>, tbin: seq<int>, x: int)
    returns (i: int)
    requires ListsOK(own, k, ring, t) && SmallHeads(ring, sbin) && TreeHeads(ring, t, tbin)
    requires x in own && own[x] < MIN_LARGE && own[x] % 8 == 0
    ensures |sbin| == NBINS && own[x] / 8 < NBINS && sbin[own[x] / 8] != 0 && x > 0
    ensures own[x] in ring && 0 <= i < |ring[own[x]]| && ring[own[x]][i] == x
    ensures Get(k, x, Next) in own && Get(k, x, Prev) in own
    ensures var ring' := DropRing(ring, own[x], i);
            && ListsOK(own - {x}, DropLinks(k, x), ring', t)
            && SmallHeads(ring', sbin[own[x] / 8 := DropHeadOf(k, x, sbin[own[x] / 8])])
            && TreeHeads(ring', t, tbin)
  {
    var s := own[x];
    i :| 0 <= i < |ring[s]| && ring[s][i] == x;
    SmallHead(own, k, ring, t, sbin, s / 8);
    assert 8 * (s / 8) == s;
    ChunkRing(own, k, ring, t, x, i);
    DropSmall(own, k, ring, t, x, i);
    ListsLarge(own, k, ring, t);
    hide ListsOK;
    assert forall q :: HeadOf(DropRing(ring, s, i), t, q) == HeadOf(ring, t, q);
    DroppedSmall(k, ring, sbin, s, i, x);
  }

  lemma DroppedSmall(k: Links, ring: Rings, sbin: seq<int>, s: nat, i: int, x: int)
    requires SmallHeads(ring, sbin) && s in ring && 0 <= i < |ring[s]| && ring[s][i] == x
    requires s < MIN_LARGE && s % 8 == 0
    requires NoDup(ring[s])
    requires Get(k, x, Next) == After(ring[s], i) && (Get(k, x, Next) == x <==> |ring[s]| == 1)
    ensures SmallHeads(DropRing(ring, s, i), sbin[s / 8 := DropHeadOf(k, x, sbin[s / 8])])
  {
    var ring', sbin' := DropRing(ring, s, i), sbin[s / 8 := DropHeadOf(k, x, sbin[s / 8])];
    assert sbin[s / 8] == ring[s][0] by { assert 8 * (s / 8) == s; }
    forall j | 0 <= j < NBINS
      ensures sbin'[j] == if 8 * j in ring' && |ring'[8 * j]| > 0 then ring'[8 * j][0] else 0
    {
      if j != s / 8 {
        assert 8 * j != s;
      }
    }
  }

  // ----- bin_chunk and unbin_chunk

  /** A chunk of that size goes to the front of its small bin or into its tree. */
  ghost predicate ListsGain(ring: Rings, t: Shape, x: int, size: nat, ring': Rings, t': Shape) {
    if size < MIN_LARGE then ring' == ring[size := [x] + if size in ring then ring[size] else []] && t' == t
    else TreeGains(ring, t, x, size, ring', t')
  }

  /** A chunk of that size leaves its small bin or its tree. */
  ghost predicate ListsLose(ring: Rings, t: Shape, x: int, size: nat, ring': Rings, t': Shape) {
    if size < MIN_LARGE then RingLoses(ring, x, size, ring') && t' == t else TreeLoses(ring, t, x, size, ring', t')
  }

  lemma GainsIs(ring: Rings, t: Shape, x: int, size: nat, ring': Rings, t': Shape)
    ensures ListsGain(ring, t, x, size, ring', t') <==>
              if size < MIN_LARGE then ring' == ring[size := [x] + if size in ring then ring[size] else []] && t' == t
              else TreeGains(ring, t, x, size, ring', t')
    ensures ListsLose(ring, t, x, size, ring', t') <==>
              if size < MIN_LARGE then RingLoses(ring, x, size, ring') && t' == t else TreeLoses(ring, t, x, size, ring', t')
  {
    hide TreeGains, TreeLoses, RingLoses;
  }

  lemma UnfoldBins(s: KmState)
    requires s.BinsOK()
    ensures Stored(s.mem, s.own, s.links, s.heapStart, s.heapStart + s.heapSize)
    ensures ListsOK(s.own, s.links, s.ring, s.shape)
    ensures SmallHeads(s.ring, s.sbin) && TreeHeads(s.ring, s.shape, s.tbin)
    ensures MapMatches(s.sbin, s.sbinmap) && MapMatches(s.tbin, s.tbinmap)
    ensures |s.sbin| == NBINS && |s.tbin| == NBINS
  {
  }

  lemma FoldBins(s: KmState)
    requires Stored(s.mem, s.own, s.links, s.heapStart, s.heapStart + s.heapSize)
    requires ListsOK(s.own, s.links, s.ring, s.shape)
    requires SmallHeads(s.ring, s.sbin) && TreeHeads(s.ring, s.shape, s.tbin)
    requires MapMatches(s.sbin, s.sbinmap) && MapMatches(s.tbin, s.tbinmap)
    ensures s.BinsOK()
  {
  }

  /** A chunk is put under the free lists' care, its links being what memory holds. */
  ghost method Admit(s: KmState, chunk: int, size: nat)
    requires Stored(s.mem, s.own, s.links, s.heapStart, s.heapStart + s.heapSize) && ListsOK(s.own, s.links, s.ring, s.shape)
    requires Binnable(s.mem, s.own, s.heapStart, s.heapStart + s.heapSize, chunk, size)
    requires size >= MIN_LARGE ==> W(s.mem, chunk + INDEX) == CalcTbin(size)
    modifies s`own, s`links
    ensures Stored(s.mem, s.own, s.links, s.heapStart, s.heapStart + s.heapSize)
    ensures s.own == old(s.own)[chunk := size] && chunk !in old(s.own) && chunk > 0
    ensures ListsOK(old(s.own), s.links, s.ring, s.shape)
  {
    StoredGrows(s.mem, s.own, s.links, s.heapStart, s.heapStart + s.heapSize, chunk, size);
    forall y, f | y != chunk
      ensures Get(LinksFromMemory(s.links, s.mem, chunk), y, f) == Get(s.links, y, f)
    {
      AdoptedLink(s.links, s.mem, chunk, y, f);
    }
    ListsIgnore(s.own, s.links, s.ring, s.shape, LinksFromMemory(s.links, s.mem, chunk), chunk);
    hide LinksFromMemory, ListsOK;
    s.links := LinksFromMemory(s.links, s.mem, chunk);
    s.own := s.own[chunk := size];
    StoredAddress(s.mem, s.own, s.links, s.heapStart, s.heapStart + s.heapSize, chunk);
  }

  /** bin_chunk for a size below MIN_LARGE_SIZE */
  method BinSmall(s: KmState, chunk: int, size: nat)
    requires s.BinsOK() && Binnable(s.mem, s.own, s.heapStart, s.heapStart + s.heapSize, chunk, size) && size < MIN_LARGE
    modifies s`mem, s`links, s`own, s`ring, s`sbin, s`sbinmap
    ensures s.BinsOK() && s.own == old(s.own)[chunk := size] && KeptOutside(old(s.mem), s.mem, s.own)
    ensures ListsGain(old(s.ring), s.shape, chunk, size, s.ring, s.shape)
  {
    hide *;
    UnfoldBins(s);
    var index := size / 8;
    BinnableSize(s.mem, s.own, s.heapStart, s.heapStart + s.heapSize, chunk, size);
    Admit(s, chunk, size);
    ghost var own0, k := old(s.own), s.links;
    SmallPushed(own0, k, s.ring, s.shape, s.sbin, s.tbin, chunk, size);
    SmallHead(own0, k, s.ring, s.shape, s.sbin, index);
    PushLinksDef(k, chunk, s.sbin[index]);
    var head := DlList.Add(s, chunk, s.sbin[index]);
    MarkFull(s.sbin, s.sbin[index := head], s.sbinmap, index);
    s.sbin := s.sbin[index := head];
    s.sbinmap := SetBit(s.sbinmap, index);
    s.ring := s.ring[size := [chunk] + if size in s.ring then s.ring[size] else []];
    GainsIs(old(s.ring), s.shape, chunk, size, s.ring, s.shape);
    FoldBins(s);
  }

  lemma BinnableSize(m: Mem, own: map<int, nat>, lo: int, hi: int, x: int, s: nat)
    requires Binnable(m, own, lo, hi, x, s)
    ensures s % 8 == 0 && MIN_CHUNK <= s < SIZE_LIMIT && x !in own && W(m, x + HEADER) == s + PINUSE
    ensures s >= MIN_LARGE ==> Large(s)
  {
  }

  lemma PushLinksDef(k: Links, x: int, head: int)
    ensures PushLinks(k, x, head) == if head != 0 then LinkBetween(k, x, Get(k, head, Prev), head) else LinkAlone(k, x)
  {
  }

  /** bin_chunk for a size from MIN_LARGE_SIZE up */
  method BinLarge(s: KmState, chunk: int, size: nat)
    requires s.BinsOK() && Binnable(s.mem, s.own, s.heapStart, s.heapStart + s.heapSize, chunk, size) && size >= MIN_LARGE
    modifies s`mem, s`links, s`own, s`ring, s`shape, s`tbin, s`tbinmap
    ensures s.BinsOK() && s.own == old(s.own)[chunk := size] && KeptOutside(old(s.mem), s.mem, s.own)
    ensures ListsGain(old(s.ring), old(s.shape), chunk, size, s.ring, s.shape)
  {
    hide *;
    UnfoldBins(s);
    BinnableSize(s.mem, s.own, s.heapStart, s.heapStart + s.heapSize, chunk, size);
    var index := CalcTbin(size);
    LargeBin(size);
    IndexWord(s.mem, s.own, s.links, s.heapStart, s.heapStart + s.heapSize, chunk, size, index);
    s.mem := s.mem[chunk + INDEX := index];
    ghost var m1 := s.mem;
    WordWritten(old(s.mem), chunk + INDEX, index);
    Admit(s, chunk, size);
    DomainRemoval(old(s.own), chunk, size);
    ghost var ring0, tbin0 := s.ring, s.tbin;
    Insert(s, chunk, index, TbinDepth(index));
    KeptTrans(old(s.mem), m1, s.mem, s.own);
    SmallUntouched(ring0, s.ring, s.sbin);
    MarkFull(tbin0, s.tbin, s.tbinmap, index);
    s.tbinmap := SetBit(s.tbinmap, index);
    GainsIs(ring0, old(s.shape), chunk, size, s.ring, s.shape);
    FoldBins(s);
  }

  lemma LargeBin(size: nat)
    requires Large(size)
    ensures CalcTbin(size) < NBINS
  {
    TbinPrefix(size);
  }

  lemma WordWritten(m: Mem, a: int, v: int)
    ensures W(m[a := v], a) == v
  {
  }

  lemma DomainRemoval(own: map<int, nat>, x: int, s: nat)
    requires x !in own
    ensures own[x := s] - {x} == own
  {
  }

  lemma SmallUntouched(ring: Rings, ring': Rings, sbin: seq<int>)
    requires SmallHeads(ring, sbin) && SameSmall(ring, ring')
    ensures SmallHeads(ring', sbin)
  {
  }

  /** bin_chunk: a free chunk joins the list its size selects, at the front of a small bin and at the end of a tree's ring. */
  method BinChunk(s: KmState, chunk: int, ghost size: nat)
    requires s.BinsOK() && Binnable(s.mem, s.own, s.heapStart, s.heapStart + s.heapSize, chunk, size)
    modifies s`mem, s`links, s`own, s`ring, s`shape, s`sbin, s`sbinmap, s`tbin, s`tbinmap
    ensures s.BinsOK() && s.own == old(s.own)[chunk := size] && KeptOutside(old(s.mem), s.mem, s.own)
    ensures ListsGain(old(s.ring), old(s.shape), chunk, size, s.ring, s.shape)
  {
    hide *;
    UnfoldBins(s);
    BinnableHeader(s.mem, s.own, s.links, s.heapStart, s.heapStart + s.heapSize, chunk, size);
    var sz := s.mem[chunk + HEADER] / 8 * 8;
    if sz < MIN_LARGE {
      BinSmall(s, chunk, sz);
    } else {
      BinLarge(s, chunk, sz);
    }
  }

  lemma BinnableHeader(m: Mem, own: map<int, nat>, k: Links, lo: int, hi: int, x: int, s: nat)
    requires Stored(m, own, k, lo, hi) && Binnable(m, own, lo, hi, x, s)
    ensures x + HEADER in m && m[x + HEADER] / 8 * 8 == s
  {
  }

  /** unbin_chunk: a chunk leaves its list. */
  method UnbinChunk(s: KmState, chunk: int)
    requires s.BinsOK() && chunk in s.own
    modifies s`mem, s`links, s`own, s`ring, s`shape, s`sbin, s`sbinmap, s`tbin, s`tbinmap
    ensures s.BinsOK() && s.own == old(s.own) - {chunk} && KeptOutside(old(s.mem), s.mem, old(s.own))
    ensures FreeHeader(s.mem, chunk, old(s.own)[chunk])
    ensures ListsLose(old(s.ring), old(s.shape), chunk, old(s.own)[chunk], s.ring, s.shape)
  {
    hide *;
    UnfoldBins(s);
    ghost var own, k, ring0, sbin0, tbin0 := s.own, s.links, s.ring, s.sbin, s.tbin;
    var size := s.GetSize(chunk);
    ChunkSize(s.mem, own, k, s.heapStart, s.heapStart + s.heapSize, chunk);
    if size < MIN_LARGE {
      var index := size / 8;
      ghost var i := SmallDropped(own, k, s.ring, s.shape, s.sbin, s.tbin, chunk);
      DropLinksDef(k, chunk, s.sbin[index]);
      var head := DlList.RemoveIntern(s, chunk, s.sbin[index]);
      s.sbin := s.sbin[index := head];
      MarkEmptied(sbin0, s.sbin, s.sbinmap, index);
      UnmarkDef(s.sbin, s.sbinmap, index);
      if s.sbin[index] == 0 {
        s.sbinmap := ClearBit(s.sbinmap, index);
      }
      StoredShrinks(s.mem, own, s.links, s.heapStart, s.heapStart + s.heapSize, chunk);
      s.own := own - {chunk};
      s.ring := DropRing(ring0, size, i);
      RingDropped(ring0, chunk, size, i);
      GainsIs(ring0, s.shape, chunk, size, s.ring, s.shape);
      FoldBins(s);
    } else {
      UnbinLarge(s, chunk);
    }
  }

  /** A tree chunk leaves its bin: kmalloc_tree_remove, then the bit of an emptied bin is cleared. */
  method UnbinLarge(s: KmState, chunk: int)
    requires s.BinsOK() && chunk in s.own && Large(s.own[chunk])
    modifies s`mem, s`links, s`own, s`ring, s`shape, s`tbin, s`tbinmap
    ensures s.BinsOK() && s.own == old(s.own) - {chunk} && KeptOutside(old(s.mem), s.mem, old(s.own))
    ensures FreeHeader(s.mem, chunk, old(s.own)[chunk])
    ensures ListsLose(old(s.ring), old(s.shape), chunk, old(s.own)[chunk], s.ring, s.shape)
  {
    hide *;
    UnfoldBins(s);
    ghost var own, k, ring0, tbin0 := s.own, s.links, s.ring, s.tbin;
    LargeAt(own, chunk);
    IndexStored(s.mem, own, k, s.heapStart, s.heapStart + s.heapSize, chunk);
    var index := s.mem[chunk + INDEX];
    LargeBin(own[chunk]);
    TreeBinUsed(own, k, s.ring, s.shape, s.tbin, chunk);
    Remove(s, chunk, index);
    SmallUntouched(ring0, s.ring, s.sbin);
    MarkEmptied(tbin0, s.tbin, s.tbinmap, index);
    UnmarkDef(s.tbin, s.tbinmap, index);
    if s.tbin[index] == 0 {
      s.tbinmap := ClearBit(s.tbinmap, index);
    }
    GainsIs(ring0, old(s.shape), chunk, own[chunk], s.ring, s.shape);
    FoldBins(s);
  }

  lemma LargeAt(own: map<int, nat>, x: int)
    requires x in own && Large(own[x])
    ensures own[x] >= MIN_LARGE
  {
  }

  ghost predicate SizePresent(own: map<int, nat>, size: nat) {
    exists x :: x in own && own[x] == size
  }

  /** A small bin is empty exactly when no binned chunk has its size. */
  lemma SmallBinFilled(own: map<int, nat>, k: Links, ring: Rings, t: Shape, sbin: seq<int>, index: nat)
    requires ListsOK(own, k, ring, t) && SmallHeads(ring, sbin) && index < NBINS
    ensures |sbin| == NBINS && (sbin[index] != 0 <==> SizePresent(own, 8 * index))
  {
    SmallHead(own, k, ring, t, sbin, index);
    if SizePresent(own, 8 * index) {
      var x :| x in own && own[x] == 8 * index;
      assert own[x] in ring;
    }
  }

  lemma SmallIndex(own: map<int, nat>, x: int, index: nat)
    requires x in own && own[x] == 8 * index && index < NBINS
    ensures own[x] < MIN_LARGE && own[x] % 8 == 0 && own[x] / 8 == index
  {
  }

  /** x is the first of the binned chunks of its size. */
  ghost predicate IsFront(own: map<int, nat>, ring: Rings, x: int) {
    x in own && own[x] in ring && |ring[own[x]]| > 0 && ring[own[x]][0] == x
  }

  lemma FrontIs(own: map<int, nat>, ring: Rings, x: int)
    ensures IsFront(own, ring, x) <==> x in own && own[x] in ring && |ring[own[x]]| > 0 && ring[own[x]][0] == x
  {
  }

  lemma RingDropped(ring: Rings, x: int, size: nat, i: int)
    requires size in ring && 0 <= i < |ring[size]| && ring[size][i] == x
    ensures RingLoses(ring, x, size, DropRing(ring, size, i))
  {
  }

  /** kmalloc_dllist_remove on a small bin, whose bit is cleared when that leaves it empty. */
  method PopBin(s: KmState, index: nat) returns (chunk: int)
    requires s.BinsOK() && index < NBINS
    modifies s`mem, s`links, s`own, s`ring, s`sbin, s`sbinmap
    ensures s.BinsOK() && KeptOutside(old(s.mem), s.mem, old(s.own))
    ensures chunk != 0 <==> SizePresent(old(s.own), 8 * index)
    ensures chunk == 0 ==> s.own == old(s.own)
    ensures chunk != 0 ==> chunk in old(s.own) && old(s.own)[chunk] == 8 * index && s.own == old(s.own) - {chunk}
    ensures if chunk == 0 then s.ring == old(s.ring)
            else IsFront(old(s.own), old(s.ring), chunk) && ListsLose(old(s.ring), s.shape, chunk, 8 * index, s.ring, s.shape)
  {
    hide *;
    UnfoldBins(s);
    ghost var own, k, ring0, sbin0 := s.own, s.links, s.ring, s.sbin;
    SmallHead(own, k, ring0, s.shape, sbin0, index);
    SmallBinFilled(own, k, ring0, s.shape, sbin0, index);
    ghost var i := 0;
    if s.sbin[index] != 0 {
      SmallIndex(own, s.sbin[index], index);
      i := SmallDropped(own, k, ring0, s.shape, sbin0, s.tbin, s.sbin[index]);
      DropLinksDef(k, s.sbin[index], s.sbin[index]);
    }
    var head;
    chunk, head := DlList.Remove(s, s.sbin[index]);
    s.sbin := s.sbin[index := head];
    MarkEmptied(sbin0, s.sbin, s.sbinmap, index);
    UnmarkDef(s.sbin, s.sbinmap, index);
    if s.sbin[index] == 0 {
      s.sbinmap := ClearBit(s.sbinmap, index);
    }
    if chunk != 0 {
      StoredShrinks(s.mem, own, s.links, s.heapStart, s.heapStart + s.heapSize, chunk);
      s.own := own - {chunk};
      s.ring := DropRing(ring0, 8 * index, i);
      RingDropped(ring0, chunk, 8 * index, i);
      GainsIs(ring0, s.shape, chunk, 8 * index, s.ring, s.shape);
      FrontIs(own, ring0, chunk);
    }
    FoldBins(s);
  }

  lemma UnmarkDef(bins: seq<int>, bitmap: nat, index: nat)
    requires index < |bins|
    ensures Unmark(bins, bitmap, index) == if bins[index] == 0 then ClearBit(bitmap, index) else bitmap
  {
  }

  lemma ChunkSize(m: Mem, own: map<int, nat>, k: Links, lo: int, hi: int, x: int)
    requires Stored(m, own, k, lo, hi) && x in own
    ensures MIN_CHUNK <= own[x] < SIZE_LIMIT && own[x] % 8 == 0
    ensures own[x] >= MIN_LARGE ==> Large(own[x])
  {
    assert SizeOK(own[x]);
  }

  lemma IndexStored(m: Mem, own: map<int, nat>, k: Links, lo: int, hi: int, x: int)
    requires Stored(m, own, k, lo, hi) && x in own && own[x] >= MIN_LARGE
    ensures x + INDEX in m && m[x + INDEX] == CalcTbin(own[x])
  {
    assert SizeOK(own[x]) && Placed(x, own[x], lo, hi) && FreeHeader(m, x, own[x]);
  }

  lemma DropLinksDef(k: Links, x: int, head: int)
    ensures DropLinks(k, x) == if Get(k, x, Next) == x then k else Bypass(k, Get(k, x, Prev), Get(k, x, Next))
    ensures DropHeadOf(k, x, head) == if Get(k, x, Next) == x then 0 else if head == x then Get(k, x, Next) else head
  {
  }

  /** A tree bin with a chunk in it has a root. */
  lemma TreeBinUsed(own: map<int, nat>, k: Links, ring: Rings, t: Shape, tbin: seq<int>, x: int)
    requires ListsOK(own, k, ring, t) && TreeHeads(ring, t, tbin) && x in own && Large(own[x])
    ensures CalcTbin(own[x]) < |tbin| && tbin[CalcTbin(own[x])] != 0
  {
    TbinPrefix(own[x]);
    var n, i := FindChunk(own, k, ring, t, x);
    RootOfBin(own, k, ring, t, tbin, n, own[x], CalcTbin(own[x]));
    ListsShape(own, k, ring, t);
    StoredOnPath(t, own[x], TbinDepth(CalcTbin(own[x])), n);
    PathBelowTop(t, own[x], TbinDepth(CalcTbin(own[x])), n.depth);
    AncestorIn(t, Root(CalcTbin(own[x])), n);
    NodeLinks(own, k, ring, t, Root(CalcTbin(own[x])));
    hide ListsOK;
  }
}
