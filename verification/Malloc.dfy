/** The placement policy: kmalloc_intern, kmalloc and kmalloc_init. */
module Malloc {
  import opened Bits
  import opened BinIndex
  import opened Trie
  import opened FreeLists
  import opened HeapState
  import opened TreeSearch
  import opened TreeBins
  import opened Bins
  import opened Chunks
  import opened HeapOps
  import opened PagerOps
  import opened PagerViews
  import opened Top

  /** Requests from here on are sized like bin 31, for which the code shifts a bitmap by its full width. */
  const REQUEST_LIMIT: nat := 0xC0_0000

  /** Some chunk on the free lists is large enough. */
  ghost predicate BinFits(own: map<int, nat>, n: nat) {
    exists x :: x in own && own[x] >= n
  }

  // ----- which chunk serves a request

  /** What is binned, and the designated victim. */
  datatype Stock = Stock(own: map<int, nat>, ring: Rings, shape: Shape, dv: int, dvSize: nat)

  ghost function StockOf(s: KmState): Stock
    reads s`own, s`ring, s`shape, s`dv, s`dvSize
  {
    Stock(s.own, s.ring, s.shape, s.dv, s.dvSize)
  }

  lemma StockIs(s: KmState)
    ensures StockOf(s) == Stock(s.own, s.ring, s.shape, s.dv, s.dvSize)
  {
  }

  /** No binned chunk with room for n bytes is smaller than x. */
  ghost predicate SmallestFit(own: map<int, nat>, n: nat, x: int) {
    x in own && own[x] >= n && forall y :: y in own && own[y] >= n ==> own[x] <= own[y]
  }

  /** A chunk of the request's own tree has room for it. */
  ghost predicate TreeFits(own: map<int, nat>, n: nat) {
    exists x :: x in own && own[x] >= n && CalcTbin(own[x]) == CalcTbin(n)
  }

  /** What the search for n bytes in the request's own tree comes to. */
  ghost predicate TreeFinds(own: map<int, nat>, ring: Rings, t: Shape, n: nat, x: int) {
    && BestFitFound(own, ring, t, Root(CalcTbin(n)), n, x)
    && MissExact(own, ring, t, n, TbinDepth(CalcTbin(n)), x)
  }

  /** A request below 256 bytes is served from a binned chunk of exactly its size, else from one that is 8 bytes larger and
      small, else, if the designated victim has no room, from a smallest that has. */
  ghost predicate ServesSmall(k: Stock, n: nat, x: int) {
    && x in k.own
    && if SizePresent(k.own, n) then k.own[x] == n
       else if n + 8 < MIN_LARGE && SizePresent(k.own, n + 8) then k.own[x] == n + 8
       else n > k.dvSize && SmallestFit(k.own, n, x)
  }

  /** A request from 256 bytes up is served from the best fit of its own tree, failing that from a smallest chunk with room: in
      both cases unless the designated victim has room and is smaller, in the second also if it is as small. */
  ghost predicate ServesLarge(k: Stock, n: nat, x: int) {
    && x in k.own
    && if TreeFits(k.own, n) then TreeFinds(k.own, k.ring, k.shape, n, x) && (n > k.dvSize || k.own[x] <= k.dvSize)
       else SmallestFit(k.own, n, x) && (n > k.dvSize || k.own[x] < k.dvSize)
  }

  /** Of the binned chunks x serves a request for n bytes: among those of its size it is the first. */
  ghost predicate Serves(k: Stock, n: nat, x: int) {
    IsFront(k.own, k.ring, x) && if n < MIN_LARGE then ServesSmall(k, n, x) else ServesLarge(k, n, x)
  }

  ghost predicate NoneServes(k: Stock, n: nat) {
    forall x :: !Serves(k, n, x)
  }

  /** From which chunk a block of n bytes at r comes, how large it is, and the designated victim after that: a binned chunk if one
      serves the request, else the designated victim if it has room, else the top chunk. */
  ghost predicate Allotted(k: Stock, top: int, n: nat, r: int, size: nat, dv': int, dvSize': nat) {
    if r == 0 then dv' == k.dv && dvSize' == k.dvSize
    else if Serves(k, n, r - PAYLOAD) then CutFrom(k.own, k.dv, k.dvSize, n, r - PAYLOAD, size, dv', dvSize')
    else
      && NoneServes(k, n)
      && if n <= k.dvSize then CutFromVictim(k.dv, k.dvSize, n, r - PAYLOAD, size, dv', dvSize')
         else r - PAYLOAD == top && size == n && dv' == k.dv && dvSize' == k.dvSize
  }

  // ----- what the bitmaps say

  /** A bit of the small bitmap is set exactly when some binned chunk has that size. */
  lemma SmallBit(s: KmState, i: nat)
    requires s.BinsOK()
    ensures Bit(s.sbinmap, i) <==> i < NBINS && SizePresent(s.own, 8 * i)
  {
    hide ListsOK, Stored;
    UnfoldBins(s);
    if i < NBINS {
      SmallBinFilled(s.own, s.links, s.ring, s.shape, s.sbin, i);
    }
  }

  /** A bit of the tree bitmap is set exactly when some binned chunk belongs to that tree. */
  lemma TreeBit(s: KmState, i: nat)
    requires s.BinsOK()
    ensures Bit(s.tbinmap, i) ==> i < NBINS && Root(i) in s.shape && s.tbin[i] == HeadOf(s.ring, s.shape, Root(i))
    ensures Bit(s.tbinmap, i) <==> exists x :: x in s.own && Large(s.own[x]) && CalcTbin(s.own[x]) == i
  {
    hide ListsOK, Stored;
    UnfoldBins(s);
    if Bit(s.tbinmap, i) {
      SelfBelow(Root(i));
      TreeMember(s, i, Root(i));
    }
    if x :| x in s.own && Large(s.own[x]) && CalcTbin(s.own[x]) == i {
      TreeBinUsed(s.own, s.links, s.ring, s.shape, s.tbin, x);
      LargeBin(s.own[x]);
    }
  }

  /** A member of bin i's tree sits below its root, and whatever sits below it belongs to the bin. */
  lemma UnderRoot(s: KmState, x: int) returns (n: Node)
    requires s.BinsOK() && x in s.own && Large(s.own[x])
    ensures CalcTbin(s.own[x]) < NBINS && n in s.shape && s.shape[n] == s.own[x] && Below(Root(CalcTbin(s.own[x])), n)
  {
    hide ListsOK, Stored;
    UnfoldBins(s);
    var size := s.own[x];
    var i;
    n, i := FindChunk(s.own, s.links, s.ring, s.shape, x);
    TbinPrefix(size);
    ListsShape(s.own, s.links, s.ring, s.shape);
    StoredOnPath(s.shape, size, TbinDepth(CalcTbin(size)), n);
    PathBelowTop(s.shape, size, TbinDepth(CalcTbin(size)), n.depth);
  }

  lemma TreeMember(s: KmState, i: nat, n: Node)
    requires s.BinsOK() && i < NBINS && n in s.shape && Below(Root(i), n)
    ensures Large(s.shape[n]) && CalcTbin(s.shape[n]) == i
    ensures HeadOf(s.ring, s.shape, n) in s.own && s.own[HeadOf(s.ring, s.shape, n)] == s.shape[n]
  {
    hide ListsOK, Stored;
    UnfoldBins(s);
    ListsShape(s.own, s.links, s.ring, s.shape);
    NodeLinks(s.own, s.links, s.ring, s.shape, n);
    Occupied(s.shape, n);
    BelowHolds(Root(i), n, s.shape[n]);
    TbinOfPrefix(s.shape[n], i);
  }

  lemma BitAbove(bitmap: nat, index: nat, j: nat)
    requires j >= index
    ensures Bit(bitmap, j) == Bit(Shr(bitmap, index), j - index)
  {
    hide Shr;
    ShrShr(bitmap, index, j - index);
  }

  lemma NoBits(j: nat)
    ensures !Bit(0, j)
  {
    ShrZero(j);
  }

  /** calc_leftbin on the bits from index up. */
  lemma NextBin(bitmap: nat, index: nat)
    ensures Shr(bitmap, index) == 0 ==> forall j :: j >= index ==> !Bit(bitmap, j)
    ensures Shr(bitmap, index) > 0 ==>
              && MaskFrom(Shr(bitmap, index), 0) > 0
              && var i := index + CalcLeftbin(0, Shr(bitmap, index));
              Bit(bitmap, i) && forall j :: index <= j < i ==> !Bit(bitmap, j)
  {
    hide *;
    var bits := Shr(bitmap, index);
    if bits > 0 {
      MaskAll(bits);
      LeftbinIsLowestOccupied(0, bits);
      BitAbove(bitmap, index, index + CalcLeftbin(0, bits));
    }
    forall j | j >= index && (bits == 0 || j < index + CalcLeftbin(0, bits))
      ensures !Bit(bitmap, j)
    {
      BitAbove(bitmap, index, j);
      if bits == 0 {
        NoBits(j - index);
      }
    }
  }

  lemma MaskAll(bits: nat)
    ensures MaskFrom(bits, 0) == bits
  {
  }

  /** The two bins from index up, and what lies beyond them. */
  lemma LowBits(bitmap: nat, index: nat)
    ensures var bits := Shr(bitmap, index);
            && (bits % 2 != 0 <==> Bit(bitmap, index))
            && (bits % 4 != 0 ==> Bit(bitmap, if bits % 2 == 0 then index + 1 else index))
            && (bits % 4 == 0 ==> !Bit(bitmap, index) && !Bit(bitmap, index + 1))
            && Shr(bits, 2) == Shr(bitmap, index + 2)
  {
    ShrShr(bitmap, index, 1);
    ShrShr(bitmap, index, 2);
    assert Shr(Shr(bitmap, index), 1) == Shr(bitmap, index) / 2;
  }

  // ----- the bins answer a request

  /** No small bin from index up is occupied, and no tree. */
  lemma NothingSmall(s: KmState, n: nat)
    requires s.BinsOK() && n < MIN_LARGE && n % 8 == 0 && Shr(s.sbinmap, n / 8) == 0 && s.tbinmap == 0
    ensures !BinFits(s.own, n)
  {
    hide KmState.BinsOK;
    NextBin(s.sbinmap, n / 8);
    if x :| x in s.own && s.own[x] >= n {
      BinnedSize(s, x);
      if s.own[x] < MIN_LARGE {
        assert s.own[x] == 8 * (s.own[x] / 8);
        SmallBit(s, s.own[x] / 8);
      } else {
        TreeBit(s, CalcTbin(s.own[x]));
        ShrZero(CalcTbin(s.own[x]));
      }
    }
  }

  lemma BinnedSize(s: KmState, x: int)
    requires s.BinsOK() && x in s.own
    ensures s.own[x] % 8 == 0 && MIN_CHUNK <= s.own[x] < SIZE_LIMIT && (s.own[x] >= MIN_LARGE ==> Large(s.own[x]))
  {
    hide ListsOK, Stored;
    UnfoldBins(s);
    ChunkSize(s.mem, s.own, s.links, s.heapStart, s.heapStart + s.heapSize, x);
  }

  lemma TreeUsed(s: KmState)
    requires s.BinsOK() && s.tbinmap != 0
    ensures MaskFrom(s.tbinmap, 0) > 0
    ensures var i := CalcLeftbin(0, s.tbinmap); i < NBINS && Root(i) in s.shape && s.tbin[i] == HeadOf(s.ring, s.shape, Root(i))
  {
    hide KmState.BinsOK;
    LeftbinIsLowestOccupied(0, s.tbinmap);
    TreeBit(s, CalcLeftbin(0, s.tbinmap));
  }

  lemma ValidBins(s: KmState)
    requires Valid(s)
    ensures s.BinsOK() && |s.sbin| == NBINS && |s.tbin| == NBINS && 0 !in s.own
    ensures Stored(s.mem, s.own, s.links, s.heapStart, s.heapStart + s.heapSize)
    ensures ListsOK(s.own, s.links, s.ring, s.shape) && TreeHeads(s.ring, s.shape, s.tbin)
  {
    hide ListsOK, Written;
    UnfoldBins(s);
    NoChunkAtZero(HeapOf(s));
  }

  /** kmalloc_tree_get_smallest on an occupied bin: the smallest of its chunks. */
  method SmallestOf(s: KmState, index: nat) returns (chunk: int)
    requires Valid(s) && index < NBINS && Root(index) in s.shape
    requires |s.tbin| == NBINS && s.tbin[index] == HeadOf(s.ring, s.shape, Root(index))
    ensures chunk != 0 && chunk in s.own && s.own[chunk] >= MIN_LARGE && CalcTbin(s.own[chunk]) == index
    ensures SmallestInTree(s.own, index, chunk) && IsFront(s.own, s.ring, chunk)
  {
    hide *;
    ValidBins(s);
    chunk := GetSmallest(s, s.tbin[index], Root(index));
    SmallestInBin(s, index, chunk);
  }

  ghost predicate SmallestInTree(own: map<int, nat>, index: nat, x: int) {
    x in own && forall y :: y in own && Large(own[y]) && CalcTbin(own[y]) == index ==> own[x] <= own[y]
  }

  lemma SmallestInBin(s: KmState, index: nat, r: int)
    requires Valid(s) && index < NBINS && IsSmallest(s.ring, s.shape, Root(index), r)
    ensures r != 0 && r in s.own && s.own[r] >= MIN_LARGE && CalcTbin(s.own[r]) == index
    ensures SmallestInTree(s.own, index, r) && IsFront(s.own, s.ring, r)
  {
    ValidBins(s);
    hide Valid, ListsOK, Stored, KmState.BinsOK;
    var m :| m in s.shape && Below(Root(index), m) && r == HeadOf(s.ring, s.shape, m) && LeastUnder(s.shape, Root(index), s.shape[m]);
    TreeMember(s, index, m);
    forall x | x in s.own && Large(s.own[x]) && CalcTbin(s.own[x]) == index
      ensures s.own[r] <= s.own[x]
    {
      var n := UnderRoot(s, x);
    }
  }

  /** No binned large chunk is smaller than x. */
  ghost predicate SmallestLarge(own: map<int, nat>, x: int) {
    x in own && own[x] >= MIN_LARGE && forall y :: y in own && own[y] >= MIN_LARGE ==> own[x] <= own[y]
  }

  /** The smallest chunk of the lowest tree is the smallest of all. */
  lemma LowestTree(s: KmState, x: int)
    requires s.BinsOK() && s.tbinmap != 0 && x in s.own && s.own[x] >= MIN_LARGE
    requires MaskFrom(s.tbinmap, 0) > 0 && CalcTbin(s.own[x]) == CalcLeftbin(0, s.tbinmap)
    requires SmallestInTree(s.own, CalcTbin(s.own[x]), x)
    ensures SmallestLarge(s.own, x)
  {
    hide KmState.BinsOK, CalcTbin;
    LeftbinIsLowestOccupied(0, s.tbinmap);
    forall y | y in s.own && s.own[y] >= MIN_LARGE
      ensures s.own[x] <= s.own[y]
    {
      BinnedSize(s, y);
      TreeBit(s, CalcTbin(s.own[y]));
      if s.own[y] < s.own[x] {
        TbinMonotone(s.own[y], s.own[x]);
      }
    }
  }

  /** allocate_smallest_tbin */
  method AllocateSmallestTbin(s: KmState, n: nat) returns (r: int)
    requires Valid(s) && s.tbinmap != 0 && MIN_CHUNK <= n <= MIN_LARGE && n % 8 == 0
    modifies s`mem, s`chunks, s`links, s`own, s`ring, s`shape, s`sbin, s`sbinmap, s`tbin, s`tbinmap, s`dv, s`dvSize
    ensures Valid(s) && r != 0 && Answer(old(s.mem), old(s.chunks), s.mem, s.chunks, r, n)
    ensures SmallestLarge(old(s.own), r - PAYLOAD) && IsFront(old(s.own), old(s.ring), r - PAYLOAD)
    ensures CutFrom(old(s.own), old(s.dv), old(s.dvSize), n, r - PAYLOAD, SizeAt(s.chunks, r - PAYLOAD), s.dv, s.dvSize)
  {
    hide *;
    ValidBins(s);
    TreeUsed(s);
    var tbin := CalcLeftbin(0, s.tbinmap);
    var chunk := SmallestOf(s, tbin);
    LowestTree(s, chunk);
    r := AllocateTchunk(s, chunk, n);
  }

  // ----- the small bins

  /** Sizes of binned chunks, seen on the bitmap. */
  lemma BitsFrom(s: KmState, n: nat, index: nat)
    requires s.BinsOK() && n % 8 == 0 && n / 8 <= index <= NBINS && n < MIN_LARGE
    requires forall j :: n / 8 <= j < index ==> !Bit(s.sbinmap, j)
    ensures forall x :: x in s.own && s.own[x] >= n ==> s.own[x] >= 8 * index
    ensures index > n / 8 ==> !SizePresent(s.own, n)
    ensures index > n / 8 + 1 ==> !SizePresent(s.own, n + 8)
  {
    hide KmState.BinsOK, Bit;
    forall x | x in s.own && s.own[x] >= n
      ensures s.own[x] >= 8 * index
    {
      BinnedSize(s, x);
      if s.own[x] < MIN_LARGE {
        assert s.own[x] == 8 * (s.own[x] / 8);
        SmallBit(s, s.own[x] / 8);
      }
    }
  }

  /** An exact fit, or 8 bytes more. */
  lemma CloseServes(s: KmState, n: nat, index: nat)
    requires s.BinsOK() && n % 8 == 0 && n < MIN_LARGE && index < NBINS && SizePresent(s.own, 8 * index)
    requires index == n / 8 || (index == n / 8 + 1 && !Bit(s.sbinmap, n / 8))
    ensures forall x :: x in s.own && IsFront(s.own, s.ring, x) && s.own[x] == 8 * index ==> Serves(StockOf(s), n, x)
  {
    hide KmState.BinsOK, Bit, SizePresent, IsFront;
    SmallBit(s, n / 8);
    assert n == 8 * (n / 8) && n / 8 < NBINS;
  }

  lemma NextServes(s: KmState, n: nat, index: nat)
    requires s.BinsOK() && n % 8 == 0 && n < MIN_LARGE && index < NBINS && n / 8 + 2 <= index && n > s.dvSize
    requires forall j :: n / 8 <= j < index ==> !Bit(s.sbinmap, j)
    ensures forall x :: x in s.own && IsFront(s.own, s.ring, x) && s.own[x] == 8 * index ==> Serves(StockOf(s), n, x)
  {
    BitsFrom(s, n, index);
    hide KmState.BinsOK, Bit, SizePresent, IsFront;
    forall x | x in s.own && s.own[x] == 8 * index
      ensures SmallestFit(s.own, n, x)
    {
    }
  }

  lemma LargeServes(s: KmState, n: nat)
    requires s.BinsOK() && n % 8 == 0 && n < MIN_LARGE && n > s.dvSize
    requires forall j :: n / 8 <= j ==> !Bit(s.sbinmap, j)
    ensures forall x :: IsFront(s.own, s.ring, x) && SmallestLarge(s.own, x) ==> Serves(StockOf(s), n, x)
  {
    BitsFrom(s, n, NBINS);
    hide KmState.BinsOK, Bit, SizePresent, IsFront;
    SmallSizes(n / 8);
    forall x | SmallestLarge(s.own, x)
      ensures SmallestFit(s.own, n, x)
    {
    }
  }

  lemma NoSmallServes(s: KmState, n: nat)
    requires s.BinsOK() && n % 8 == 0 && n < MIN_LARGE && (n <= s.dvSize || !BinFits(s.own, n))
    requires !Bit(s.sbinmap, n / 8) && !Bit(s.sbinmap, n / 8 + 1)
    ensures NoneServes(StockOf(s), n)
  {
    hide KmState.BinsOK, Bit, IsFront;
    SmallBit(s, n / 8);
    SmallBit(s, n / 8 + 1);
    assert n == 8 * (n / 8);
    forall x
      ensures !Serves(StockOf(s), n, x)
    {
      if ServesSmall(StockOf(s), n, x) && n > s.dvSize {
        ChunkFits(s.own, x, n);
      }
    }
  }

  /** A request below 256 bytes from the bins: an exact fit or one that is 8 bytes too large if there is one;
      failing that, unless the designated victim will do, the next larger small chunk or the smallest chunk of
      the lowest tree. */
  method FromSmallBins(s: KmState, n: nat) returns (r: int)
    requires Valid(s) && MIN_CHUNK <= n < MIN_LARGE && n % 8 == 0
    modifies s`mem, s`chunks, s`links, s`own, s`ring, s`shape, s`sbin, s`sbinmap, s`tbin, s`tbinmap, s`dv, s`dvSize
    ensures Valid(s) && Answer(old(s.mem), old(s.chunks), s.mem, s.chunks, r, n)
    ensures r == 0 ==> s.dvSize == old(s.dvSize) && (n <= s.dvSize || !BinFits(old(s.own), n))
    ensures r != 0 ==> BinFits(old(s.own), n)
    ensures if r == 0 then NoneServes(old(StockOf(s)), n) && s.dv == old(s.dv)
            else && Serves(old(StockOf(s)), n, r - PAYLOAD)
                 && CutFrom(old(s.own), old(s.dv), old(s.dvSize), n, r - PAYLOAD, SizeAt(s.chunks, r - PAYLOAD), s.dv, s.dvSize)
  {
    hide *;
    LiveSame(s.mem, s.chunks);
    AnswerNull(s.mem, s.chunks, s.mem, n);
    r := 0;
    ValidBins(s);
    var index := n / 8;
    var bits := Shr(s.sbinmap, index);
    LowBits(s.sbinmap, index);
    if bits % 4 != 0 {
      if bits % 2 == 0 {
        index := index + 1;
      }
      SmallBit(s, index);
      CloseFit(n, index);
      CloseServes(s, n, index);
      SizeFits(s.own, 8 * index, n);
      r := AllocateSbin(s, index, n);
      ProvidesIs(old(s.own), old(s.ring), old(s.dv), old(s.dvSize), n, r, 8 * index, s.chunks, s.dv, s.dvSize);
    } else if n > s.dvSize {
      index := index + 2;
      bits := Shr(bits, 2);
      NextBin(s.sbinmap, index);
      if bits != 0 {
        index := index + CalcLeftbin(0, bits);
        SmallBit(s, index);
        CloseFit(n, index);
        NextServes(s, n, index);
        SizeFits(s.own, 8 * index, n);
        r := SplitSbin(s, index, n);
        ProvidesIs(old(s.own), old(s.ring), old(s.dv), old(s.dvSize), n, r, 8 * index, s.chunks, s.dv, s.dvSize);
      } else if s.tbinmap != 0 {
        SomeTreeFits(s, n);
        LargeServes(s, n);
        r := AllocateSmallestTbin(s, n);
      } else {
        NothingAtAll(s, n);
        NoSmallServes(s, n);
      }
    } else {
      NoSmallServes(s, n);
    }
  }

  lemma CloseFit(n: nat, index: nat)
    requires n % 8 == 0 && n / 8 <= index
    ensures n <= 8 * index && (index <= n / 8 + 1 ==> 8 * index < n + MIN_CHUNK)
    ensures index >= n / 8 + 2 ==> n + MIN_CHUNK <= 8 * index
  {
  }

  lemma SizeFits(own: map<int, nat>, size: nat, n: nat)
    requires SizePresent(own, size) && n <= size
    ensures BinFits(own, n)
  {
  }

  lemma ChunkFits(own: map<int, nat>, x: int, n: nat)
    requires x in own && own[x] >= n
    ensures BinFits(own, n)
  {
  }

  lemma SomeTreeFits(s: KmState, n: nat)
    requires Valid(s) && s.tbinmap != 0 && n < MIN_LARGE
    ensures n <= MIN_LARGE && BinFits(s.own, n)
  {
    ValidBins(s);
    hide Valid, KmState.BinsOK, Stored;
    TreeUsed(s);
    NodeLinks(s.own, s.links, s.ring, s.shape, Root(CalcLeftbin(0, s.tbinmap)));
    hide ListsOK;
  }

  lemma NothingAtAll(s: KmState, n: nat)
    requires s.BinsOK() && n < MIN_LARGE && n % 8 == 0 && Shr(s.sbinmap, n / 8) % 4 == 0
    requires Shr(Shr(s.sbinmap, n / 8), 2) == 0 && s.tbinmap == 0
    ensures !BinFits(s.own, n)
  {
    assert Shr(Shr(Shr(s.sbinmap, n / 8), 1), 1) == 0 by {
      ShrShr(Shr(s.sbinmap, n / 8), 1, 1);
    }
    NothingSmall(s, n);
  }

  lemma FoundIs(own: map<int, nat>, ring: Rings, t: Shape, root: Node, n: nat, r: int)
    requires BestFitFound(own, ring, t, root, n, r) && Large(n)
    ensures r != 0 ==> r in own && own[r] >= n >= MIN_LARGE
    ensures r == 0 ==> forall m :: m in t && Below(root, m) ==> t[m] < n
  {
  }

  lemma LargeEnough(n: nat, size: nat)
    requires Large(n) && n <= size < SIZE_LIMIT && size % 8 == 0
    ensures Large(size)
  {
  }

  lemma FoundInTree(s: KmState, n: nat, r: int)
    requires Valid(s) && Large(n) && CalcTbin(n) < NBINS && r != 0
    requires BestFitFound(s.own, s.ring, s.shape, Root(CalcTbin(n)), n, r)
    ensures r in s.own && CalcTbin(s.own[r]) == CalcTbin(n) && IsFront(s.own, s.ring, r) && TreeFits(s.own, n)
  {
    ValidBins(s);
    hide Valid, KmState.BinsOK, ListsOK, Stored, CalcTbin, TbinDepth, Below;
    var m :| m in s.shape && Below(Root(CalcTbin(n)), m) && r == HeadOf(s.ring, s.shape, m) && s.own[r] == s.shape[m];
    TreeMember(s, CalcTbin(n), m);
  }

  /** The search has one answer. */
  lemma SearchSame(own: map<int, nat>, ring: Rings, t: Shape, n: nat, x: int, y: int)
    requires TreeFinds(own, ring, t, n, x) && TreeFinds(own, ring, t, n, y)
    requires PathNode(n, TbinDepth(CalcTbin(n))) == Root(CalcTbin(n))
    ensures x == y
  {
    var root, top := Root(CalcTbin(n)), TbinDepth(CalcTbin(n));
    hide CalcTbin, TbinDepth, PathNode, Below, MissesAt;
    if x != 0 && y != 0 {
      if Misses(t, n, top) {
        var e, d :| MissesAt(t, n, top, e, d);
        OneSmallest(ring, t, PathNode(n, e).Right(), x, y);
      } else {
        var p :| p in t && Below(root, p) && x == HeadOf(ring, t, p) && own[x] == t[p];
        var q :| q in t && Below(root, q) && y == HeadOf(ring, t, q) && own[y] == t[q];
        assert own[x] == own[y];
      }
    }
  }

  lemma OneSmallest(ring: Rings, t: Shape, n: Node, x: int, y: int)
    requires IsSmallest(ring, t, n, x) && IsSmallest(ring, t, n, y)
    ensures x == y
  {
    var p :| p in t && Below(n, p) && x == HeadOf(ring, t, p) && LeastUnder(t, n, t[p]);
    var q :| q in t && Below(n, q) && y == HeadOf(ring, t, q) && LeastUnder(t, n, t[q]);
    assert t[p] == t[q];
    hide Below;
  }

  /** It is the best fit of all binned chunks, unless the search misses that. */
  lemma FindsSmallest(s: KmState, n: nat, x: int)
    requires Valid(s) && Large(n) && x != 0 && TreeFinds(s.own, s.ring, s.shape, n, x)
    requires !Misses(s.shape, n, TbinDepth(CalcTbin(n)))
    ensures SmallestFit(s.own, n, x)
  {
    hide *;
    ValidBins(s);
    FindsIs(s.own, s.ring, s.shape, n, x);
    LargeBin(n);
    FoundInTree(s, n, x);
    FindsLeast(s.own, s.ring, s.shape, n, x);
    forall y | y in s.own && s.own[y] >= n
      ensures s.own[x] <= s.own[y]
    {
      BinnedSize(s, y);
      LargeEnough(n, s.own[y]);
      if s.own[y] < s.own[x] {
        TbinMonotone(n, s.own[y]);
        TbinMonotone(s.own[y], s.own[x]);
        var q := UnderRoot(s, y);
        LeastOf(s.shape, Root(CalcTbin(n)), n, s.own[x], q);
      }
    }
    FoldSmallest(s.own, n, x);
  }

  lemma FindsLeast(own: map<int, nat>, ring: Rings, t: Shape, n: nat, x: int)
    requires Large(n) && x != 0 && TreeFinds(own, ring, t, n, x) && !Misses(t, n, TbinDepth(CalcTbin(n)))
    ensures x in own && own[x] >= n && LeastFit(t, Root(CalcTbin(n)), n, own[x])
  {
    TbinPrefix(n);
    assert PathNode(n, TbinDepth(CalcTbin(n))) == Root(CalcTbin(n));
    hide LeastFit, Misses, CalcTbin, TbinDepth;
  }

  lemma LeastOf(t: Shape, n: Node, size: nat, least: nat, q: Node)
    requires LeastFit(t, n, size, least) && q in t && Below(n, q) && t[q] >= size
    ensures least <= t[q]
  {
    hide Below;
  }

  lemma FoldSmallest(own: map<int, nat>, n: nat, x: int)
    requires x in own && own[x] >= n && forall y :: y in own && own[y] >= n ==> own[x] <= own[y]
    ensures SmallestFit(own, n, x)
  {
  }

  /** A best fit exists in the bin of the request exactly when a chunk of that bin is large enough. */
  lemma BinSearched(s: KmState, n: nat, r: int)
    requires Valid(s) && Large(n) && CalcTbin(n) < NBINS
    requires BestFitFound(s.own, s.ring, s.shape, Root(CalcTbin(n)), n, r)
    ensures r != 0 ==> r in s.own && s.own[r] >= n && s.own[r] >= MIN_LARGE
    ensures r != 0 ==> CalcTbin(s.own[r]) == CalcTbin(n) && IsFront(s.own, s.ring, r) && TreeFits(s.own, n)
    ensures r == 0 ==> forall x :: x in s.own && s.own[x] >= n ==> CalcTbin(s.own[x]) > CalcTbin(n)
  {
    hide *;
    ValidBins(s);
    if r != 0 {
      FoundInTree(s, n, r);
    }
    FoundIs(s.own, s.ring, s.shape, Root(CalcTbin(n)), n, r);
    if r == 0 {
      forall x | x in s.own && s.own[x] >= n
        ensures CalcTbin(s.own[x]) > CalcTbin(n)
      {
        TbinMonotone(n, s.own[x]);
        BinnedSize(s, x);
        LargeEnough(n, s.own[x]);
        var q := UnderRoot(s, x);
        assert s.shape[q] == s.own[x];
      }
    }
  }

  /** Chunks of higher bins are larger. */
  lemma HigherBin(n: nat, size: nat)
    requires CalcTbin(size) > CalcTbin(n)
    ensures size >= n
  {
    if size < n {
      TbinMonotone(size, n);
    }
  }

  lemma NothingHigher(s: KmState, n: nat)
    requires Valid(s) && Large(n) && Shr(s.tbinmap, CalcTbin(n) + 1) == 0
    requires forall x :: x in s.own && s.own[x] >= n ==> CalcTbin(s.own[x]) > CalcTbin(n)
    ensures !BinFits(s.own, n)
  {
    ValidBins(s);
    hide Valid, ListsOK, Stored, KmState.BinsOK;
    NextBin(s.tbinmap, CalcTbin(n) + 1);
    if x :| x in s.own && s.own[x] >= n {
      BinnedSize(s, x);
      TreeBit(s, CalcTbin(s.own[x]));
    }
  }

  lemma BelowBin31(n: nat)
    requires n < REQUEST_LIMIT
    ensures Shr(n, 22) < 3
  {
    assert Shr(0xBFFFFF, 6) == 0x2FFFF;
    assert Shr(0xBFFFFF, 12) == 0xBFF;
    assert Shr(0xBFFFFF, 17) == 0x5F;
    ShrMonotone(n, 0xBFFFFF, 22);
  }

  /** There is a bin above the request's own, and a shift of the bitmap that gets there, exactly below this limit. */
  lemma RequestBinExact(n: nat)
    requires n >= MIN_LARGE
    ensures CalcTbin(n) + 1 < NBINS <==> n < REQUEST_LIMIT
  {
    if n < REQUEST_LIMIT {
      TbinPrefix(n);
      BelowBin31(n);
    } else {
      TbinPrefix(REQUEST_LIMIT);
      FirstOfBin31();
      TbinMonotone(REQUEST_LIMIT, n);
    }
  }

  lemma FirstOfBin31()
    ensures CalcTbin(REQUEST_LIMIT) == 31
  {
    assert Shr(0xC0_0000, 8) == 0xC000 && Shr(0xC000, 8) == 0xC0 && Shr(0xC0, 6) == 3;
    ShrShr(0xC0_0000, 8, 14);
    ShrShr(0xC000, 8, 6);
    TbinOfPrefix(REQUEST_LIMIT, 31);
  }

  /** No binned chunk fits, and for the bins above the request's own the code shifts a bitmap by its full width, which C
      leaves undefined. */
  ghost predicate BeyondBins(own: map<int, nat>, n: nat) {
    n >= REQUEST_LIMIT && !BinFits(own, n)
  }

  lemma BeyondIs(own: map<int, nat>, n: nat)
    ensures BeyondBins(own, n) <==> n >= REQUEST_LIMIT && !BinFits(own, n)
  {
  }

  /** The best fit in the request's own tree. */
  method SearchTree(s: KmState, n: nat, index: nat) returns (chunk: int)
    requires Valid(s) && MIN_LARGE <= n && n % 8 == 0 && index == CalcTbin(n)
    ensures index < NBINS && (index + 1 < NBINS <==> n < REQUEST_LIMIT)
    ensures chunk != 0 ==> chunk in s.own && s.own[chunk] >= n && s.own[chunk] >= MIN_LARGE
    ensures chunk == 0 ==> forall x :: x in s.own && s.own[x] >= n ==> CalcTbin(s.own[x]) > index
    ensures chunk == 0 && n >= REQUEST_LIMIT ==> !BinFits(s.own, n)
    ensures chunk != 0 ==> TreeFinds(s.own, s.ring, s.shape, n, chunk) && IsFront(s.own, s.ring, chunk) && TreeFits(s.own, n)
  {
    hide *;
    ValidBins(s);
    TreeOf(n);
    if n < SIZE_LIMIT {
      chunk := GetBestFit(s, n, index, TbinDepth(index));
      BinSearched(s, n, chunk);
      FindsIs(s.own, s.ring, s.shape, n, chunk);
    } else {
      Bin31Single(s);
      chunk := SearchBeyond(s, n, index, TbinDepth(index));
      NothingBeyond(s, n);
    }
    if chunk == 0 && n >= REQUEST_LIMIT {
      NothingInBin31(s, n);
    }
  }

  lemma FindsIs(own: map<int, nat>, ring: Rings, t: Shape, n: nat, x: int)
    ensures TreeFinds(own, ring, t, n, x) <==>
              && BestFitFound(own, ring, t, Root(CalcTbin(n)), n, x)
              && MissExact(own, ring, t, n, TbinDepth(CalcTbin(n)), x)
  {
    hide BestFitFound, MissExact;
  }

  lemma TreeOf(n: nat)
    requires MIN_LARGE <= n && n % 8 == 0
    ensures CalcTbin(n) < NBINS && (CalcTbin(n) + 1 < NBINS <==> n < REQUEST_LIMIT)
    ensures n < SIZE_LIMIT ==> Large(n)
    ensures n >= REQUEST_LIMIT ==> CalcTbin(n) == 31
    ensures n >= SIZE_LIMIT ==> CalcTbin(n) == 31 && n >= REQUEST_LIMIT
  {
    RequestBinExact(n);
    if n < SIZE_LIMIT {
      TbinPrefix(n);
    } else {
      LastBin(n);
    }
    hide Shr;
  }

  lemma NothingBeyond(s: KmState, n: nat)
    requires Valid(s) && n >= SIZE_LIMIT
    ensures forall x :: x in s.own ==> s.own[x] < n
  {
    ValidBins(s);
    hide Valid, KmState.BinsOK, Stored, ListsOK;
    forall x | x in s.own
      ensures s.own[x] < n
    {
      BinnedSize(s, x);
    }
  }

  lemma NothingInBin31(s: KmState, n: nat)
    requires Valid(s) && n >= REQUEST_LIMIT && CalcTbin(n) == 31
    requires forall x :: x in s.own && s.own[x] >= n ==> CalcTbin(s.own[x]) > 31
    ensures !BinFits(s.own, n)
  {
    ValidBins(s);
    hide Valid, KmState.BinsOK, Stored, ListsOK, CalcTbin;
    forall x | x in s.own
      ensures CalcTbin(s.own[x]) <= 31
    {
      BinnedSize(s, x);
      LastBinIs31(s.own[x]);
    }
  }

  lemma LastBinIs31(size: nat)
    requires size < SIZE_LIMIT
    ensures CalcTbin(size) <= 31
  {
    if size >= MIN_LARGE {
      TbinPrefix(size);
    }
  }

  /** A request from 256 bytes up from the bins: the best fit in the request's own tree, failing that the
      smallest chunk of the next occupied tree, in both cases unless the designated victim fits better. */
  method FromTreeBins(s: KmState, n: nat) returns (r: int, undefined: bool)
    requires Valid(s) && MIN_LARGE <= n && n % 8 == 0
    modifies s`mem, s`chunks, s`links, s`own, s`ring, s`shape, s`sbin, s`sbinmap, s`tbin, s`tbinmap, s`dv, s`dvSize
    ensures Valid(s) && Answer(old(s.mem), old(s.chunks), s.mem, s.chunks, r, n)
    ensures undefined <==> BeyondBins(old(s.own), n)
    ensures r == 0 ==> s.dvSize == old(s.dvSize) && (n <= s.dvSize || !BinFits(old(s.own), n))
    ensures r != 0 ==> BinFits(old(s.own), n)
    ensures undefined ==> r == 0 && s.mem == old(s.mem) && s.chunks == old(s.chunks)
    ensures if r == 0 then NoneServes(old(StockOf(s)), n) && s.dv == old(s.dv)
            else && Serves(old(StockOf(s)), n, r - PAYLOAD)
                 && CutFrom(old(s.own), old(s.dv), old(s.dvSize), n, r - PAYLOAD, SizeAt(s.chunks, r - PAYLOAD), s.dv, s.dvSize)
  {
    hide *;
    LiveSame(s.mem, s.chunks);
    AnswerNull(s.mem, s.chunks, s.mem, n);
    r, undefined := 0, false;
    ValidBins(s);
    LargeIsChunk(n);
    BeyondIs(s.own, n);
    TreeOf(n);
    var index := CalcTbin(n);
    var chunk := SearchTree(s, n, index);
    if chunk != 0 {
      ChunkFits(s.own, chunk, n);
      BinnedSize(s, chunk);
      FoundServes(s, n, chunk);
      if n > s.dvSize || s.GetSize(chunk) <= s.dvSize {
        r := AllocateTchunk(s, chunk, n);
      }
    } else {
      index := index + 1;
      NotInTree(s.own, n);
      if index == NBINS {
        NoLargeServes(s, n);
        return 0, true;
      }
      var bits := Shr(s.tbinmap, index);
      NextBin(s.tbinmap, index);
      if bits != 0 {
        index := index + CalcLeftbin(0, bits);
        TreeBit(s, index);
        BinsAbove(s, n, index);
        var dvIndex := CalcTbin(s.dvSize);
        if dvIndex >= index || n > s.dvSize {
          chunk := SmallestOf(s, index);
          HigherBin(n, s.own[chunk]);
          ChunkFits(s.own, chunk, n);
          SmallestAbove(s, n, index, chunk);
          NextTreeServes(s, n, chunk);
          if n > s.dvSize || s.GetSize(chunk) < s.dvSize {
            r := AllocateTchunk(s, chunk, n);
          }
        } else {
          VictimBelow(s, n, index);
        }
      } else {
        NothingHigher(s, n);
        NoLargeServes(s, n);
      }
    }
  }

  /** The chunk found in the request's own tree serves it, or none does. */
  lemma FoundServes(s: KmState, n: nat, x: int)
    requires n >= MIN_LARGE && n % 8 == 0 && x != 0 && x in s.own && IsFront(s.own, s.ring, x)
    requires TreeFinds(s.own, s.ring, s.shape, n, x) && TreeFits(s.own, n) && s.own[x] < SIZE_LIMIT && n <= s.own[x]
    ensures n > s.dvSize || s.own[x] <= s.dvSize ==> Serves(StockOf(s), n, x)
    ensures !(n > s.dvSize || s.own[x] <= s.dvSize) ==> NoneServes(StockOf(s), n)
  {
    TbinPrefix(n);
    assert PathNode(n, TbinDepth(CalcTbin(n))) == Root(CalcTbin(n));
    hide TreeFinds, TreeFits, CalcTbin, TbinDepth, IsFront, PathNode, Root;
    forall y | TreeFinds(s.own, s.ring, s.shape, n, y)
      ensures y == x
    {
      SearchSame(s.own, s.ring, s.shape, n, x, y);
    }
  }

  lemma NotInTree(own: map<int, nat>, n: nat)
    requires forall x :: x in own && own[x] >= n ==> CalcTbin(own[x]) > CalcTbin(n)
    ensures !TreeFits(own, n)
  {
    hide CalcTbin;
  }

  lemma NoLargeServes(s: KmState, n: nat)
    requires n >= MIN_LARGE && !BinFits(s.own, n) && !TreeFits(s.own, n)
    ensures NoneServes(StockOf(s), n)
  {
    hide TreeFinds, TreeFits, IsFront;
  }

  /** Whatever has room is in the tree of that index or in a higher one. */
  lemma BinsAbove(s: KmState, n: nat, index: nat)
    requires Valid(s) && Large(n) && CalcTbin(n) < index
    requires forall x :: x in s.own && s.own[x] >= n ==> CalcTbin(s.own[x]) > CalcTbin(n)
    requires forall j :: CalcTbin(n) + 1 <= j < index ==> !Bit(s.tbinmap, j)
    ensures forall x :: x in s.own && s.own[x] >= n ==> Large(s.own[x]) && CalcTbin(s.own[x]) >= index
  {
    ValidBins(s);
    hide Valid, KmState.BinsOK, ListsOK, Stored, CalcTbin, Bit;
    forall x | x in s.own && s.own[x] >= n
      ensures Large(s.own[x]) && CalcTbin(s.own[x]) >= index
    {
      BinnedSize(s, x);
      TreeBit(s, CalcTbin(s.own[x]));
    }
  }

  lemma SmallestAbove(s: KmState, n: nat, index: nat, x: int)
    requires forall y :: y in s.own && s.own[y] >= n ==> Large(s.own[y]) && CalcTbin(s.own[y]) >= index
    requires x in s.own && CalcTbin(s.own[x]) == index && SmallestInTree(s.own, index, x) && s.own[x] >= n
    ensures SmallestFit(s.own, n, x)
  {
    hide CalcTbin, Large;
    forall y | y in s.own && s.own[y] >= n
      ensures s.own[x] <= s.own[y]
    {
      if CalcTbin(s.own[y]) > index {
        HigherBin(s.own[x], s.own[y]);
      }
    }
  }

  /** The smallest chunk of the next tree serves the request, or none does. */
  lemma NextTreeServes(s: KmState, n: nat, x: int)
    requires n >= MIN_LARGE && IsFront(s.own, s.ring, x) && SmallestFit(s.own, n, x) && !TreeFits(s.own, n)
    ensures n > s.dvSize || s.own[x] < s.dvSize ==> Serves(StockOf(s), n, x)
    ensures !(n > s.dvSize || s.own[x] < s.dvSize) ==> NoneServes(StockOf(s), n)
  {
    hide TreeFinds, TreeFits, IsFront;
  }

  /** The victim has room and is in a lower tree than all binned chunks that have. */
  lemma VictimBelow(s: KmState, n: nat, index: nat)
    requires n >= MIN_LARGE && CalcTbin(s.dvSize) < index && n <= s.dvSize && !TreeFits(s.own, n)
    requires forall x :: x in s.own && s.own[x] >= n ==> Large(s.own[x]) && CalcTbin(s.own[x]) >= index
    ensures NoneServes(StockOf(s), n)
  {
    hide TreeFinds, TreeFits, IsFront, CalcTbin, Large;
    forall x | x in s.own && s.own[x] >= n
      ensures s.own[x] >= s.dvSize
    {
      HigherBin(s.dvSize, s.own[x]);
    }
  }

  /** Bin 31 has one chunk at most: two would not fit into 16 megabytes. */
  lemma Bin31Single(s: KmState)
    requires Valid(s)
    ensures OnlyRoot(s.shape, Root(31))
  {
    ValidBins(s);
    HeapBound(s);
    hide Valid, ListsOK, KmState.BinsOK, Stored, HeadOf;
    ListsShape(s.own, s.links, s.ring, s.shape);
    forall n | n in s.shape && Below(Root(31), n)
      ensures n == Root(31)
    {
      AncestorIn(s.shape, Root(31), n);
      SelfBelow(Root(31));
      TreeMember(s, 31, n);
      TreeMember(s, 31, Root(31));
      RequestBinExact(s.shape[n]);
      RequestBinExact(s.shape[Root(31)]);
      SingleHuge(s.mem, s.own, s.links, s.heapStart, s.heapStart + s.heapSize,
                 HeadOf(s.ring, s.shape, n), HeadOf(s.ring, s.shape, Root(31)));
      SameHeadSameNode(s.own, s.links, s.ring, s.shape, n, Root(31));
    }
  }

  lemma SingleHuge(m: Mem, own: map<int, nat>, k: Links, lo: int, hi: int, x: int, y: int)
    requires Stored(m, own, k, lo, hi) && hi - lo <= SIZE_LIMIT && x in own && y in own
    requires own[x] >= REQUEST_LIMIT && own[y] >= REQUEST_LIMIT
    ensures x == y
  {
    assert Placed(x, own[x], lo, hi) && Placed(y, own[y], lo, hi);
  }

  lemma HeapBound(s: KmState)
    requires Valid(s)
    ensures s.heapSize <= SIZE_LIMIT
  {
    hide Core, BinnedBut, VictimOK, PagerOK;
  }

  lemma LargeIsChunk(n: nat)
    requires n >= MIN_LARGE
    ensures n >= MIN_CHUNK
  {
  }

  // ----- kmalloc

  /** Neither a binned chunk nor the designated victim nor the top chunk is large enough. */
  ghost predicate NoRoom(s: KmState, n: nat)
    reads s`own, s`dvSize, s`topSize
  {
    NoneFits(s.own, s.dvSize, s.topSize, n)
  }

  ghost predicate NoneFits(own: map<int, nat>, dvSize: nat, topSize: nat, n: nat) {
    !BinFits(own, n) && dvSize < n && topSize < n
  }

  /** The pager can make the top chunk large enough. */
  ghost predicate Extensible(s: KmState, n: nat)
    reads s`topSize, s.pager
  {
    TopExtends(s.topSize, s.pager.View(), n)
  }

  ghost predicate TopExtends(topSize: nat, v: PagerView, n: nat) {
    topSize < n && CanExtendBy(v, n - topSize)
  }

  /** The pager must add k bytes, the least whole number of pages with which the top chunk holds n bytes. */
  lemma ExtensibleExact(s: KmState, n: nat, k: nat)
    requires s.topSize < n && k % 4096 == 0 && n - s.topSize <= k < n - s.topSize + 4096
    ensures Extensible(s, n) <==> k <= 0x7FFF_FFFF && s.pager.View().CanGrowBy(k)
  {
    ExtendExact(s.pager.View(), n - s.topSize, k);
    hide CanExtendBy, PagerView.CanGrowBy;
  }

  lemma RoomIs(s: KmState, n: nat)
    ensures NoRoom(s, n) <==> !BinFits(s.own, n) && s.dvSize < n && s.topSize < n
    ensures Extensible(s, n) <==> s.topSize < n && CanExtend(s.pager, n - s.topSize)
  {
  }

  /** The heap's end after kmalloc_intern: it changes only when nothing else fits. */
  ghost function AllocatedEnd(own: map<int, nat>, dvSize: nat, e: End, n: nat, allowExpand: bool): End {
    if BeyondBins(own, n) || BinFits(own, n) || n <= dvSize then e else SplitEnd(e, n, allowExpand)
  }

  lemma AllocatedEndIs(own: map<int, nat>, dvSize: nat, e: End, n: nat, allowExpand: bool)
    ensures AllocatedEnd(own, dvSize, e, n, allowExpand) ==
              if BeyondBins(own, n) || BinFits(own, n) || n <= dvSize then e else SplitEnd(e, n, allowExpand)
  {
  }

  /** kmalloc_intern.  The request fails exactly when no binned chunk, nor the designated victim, nor the top chunk is
      large enough and the heap can not grow, and it grows only then; unless it is so large that what the code does is
      undefined. */
  method KmallocIntern(s: KmState, n: nat, allowExpand: bool) returns (r: int, undefined: bool)
    requires Valid(s) && MIN_CHUNK <= n && n % 8 == 0
    modifies s`mem, s`chunks, s`links, s`own, s`ring, s`shape, s`sbin, s`sbinmap, s`tbin, s`tbinmap, s`dv, s`dvSize
    modifies s`top, s`topSize, s`heapSize, s.pager
    ensures Valid(s) && Answer(old(s.mem), old(s.chunks), s.mem, s.chunks, r, n)
    ensures undefined <==> BeyondBins(old(s.own), n)
    ensures undefined ==> r == 0 && s.mem == old(s.mem) && s.chunks == old(s.chunks)
    ensures BinFits(old(s.own), n) || (!undefined && n <= old(s.dvSize)) ==>
              r != 0 && s.heapSize == old(s.heapSize) && s.top == old(s.top) && s.topSize == old(s.topSize)
    ensures !undefined && n <= old(s.topSize) ==> r != 0 && s.heapSize == old(s.heapSize)
    ensures !undefined ==> (r == 0 <==> old(NoRoom(s, n)) && !(allowExpand && old(Extensible(s, n))))
    ensures r == 0 || !allowExpand ==> s.heapSize == old(s.heapSize)
    ensures EndOf(s) == AllocatedEnd(old(s.own), old(s.dvSize), old(EndOf(s)), n, allowExpand)
    ensures GrownFor(old(s.topSize), n, old(s.heapSize), s.heapSize)
    ensures Allotted(old(StockOf(s)), old(s.top), n, r, SizeAt(s.chunks, r - PAYLOAD), s.dv, s.dvSize)
  {
    hide *;
    NotGrown(s.topSize, n, s.heapSize);
    r, undefined := 0, false;
    AllocatedEndIs(s.own, s.dvSize, EndOf(s), n, allowExpand);
    RoomIs(s, n);
    RequestWord(n);
    BeyondIs(s.own, n);
    StockIs(s);
    ghost var m0, cs, k, top := s.mem, s.chunks, StockOf(s), s.top;
    if n < MIN_LARGE {
      r := FromSmallBins(s, n);
    } else {
      r, undefined := FromTreeBins(s, n);
    }
    AllottedIs(k, top, n, r, SizeAt(s.chunks, r - PAYLOAD), s.dv, s.dvSize);
    if undefined {
      return;
    }
    ghost var m1, cs1 := s.mem, s.chunks;
    if r == 0 {
      if n <= s.dvSize {
        r := AllocateDv(s, n);
      } else {
        r := SplitTop(s, n, allowExpand);
      }
      AnswerLater(m0, cs, m1, cs1, s.mem, s.chunks, r, n);
      AllottedIs(k, top, n, r, SizeAt(s.chunks, r - PAYLOAD), s.dv, s.dvSize);
    }
  }

  lemma NotGrown(topSize: nat, n: nat, heapSize: nat)
    ensures GrownFor(topSize, n, heapSize, heapSize)
  {
  }

  lemma AllottedIs(k: Stock, top: int, n: nat, r: int, size: nat, dv': int, dvSize': nat)
    ensures r == 0 ==> (Allotted(k, top, n, r, size, dv', dvSize') <==> dv' == k.dv && dvSize' == k.dvSize)
    ensures r != 0 && Serves(k, n, r - PAYLOAD) ==>
              (Allotted(k, top, n, r, size, dv', dvSize') <==>
                CutFrom(k.own, k.dv, k.dvSize, n, r - PAYLOAD, size, dv', dvSize'))
    ensures r != 0 && NoneServes(k, n) && n <= k.dvSize ==>
              (Allotted(k, top, n, r, size, dv', dvSize') <==>
                CutFromVictim(k.dv, k.dvSize, n, r - PAYLOAD, size, dv', dvSize'))
    ensures r != 0 && NoneServes(k, n) && n > k.dvSize ==>
              (Allotted(k, top, n, r, size, dv', dvSize') <==>
                r - PAYLOAD == top && size == n && dv' == k.dv && dvSize' == k.dvSize)
  {
    hide Serves, CutFrom, CutFromVictim;
  }

  /** Two chunks that serve the same request are the same. */
  lemma ServesOne(k: Stock, n: nat, x: int, y: int)
    requires Serves(k, n, x) && Serves(k, n, y) && (n < SIZE_LIMIT || !BinFits(k.own, n))
    ensures x == y
  {
    if n >= MIN_LARGE && TreeFits(k.own, n) {
      TbinPrefix(n);
      hide CalcTbin, TbinDepth, TreeFinds, Root, PathNode, SizePresent;
      SearchSame(k.own, k.ring, k.shape, n, x, y);
    } else {
      hide TreeFinds, SizePresent, TreeFits;
      assert k.own[x] == k.own[y];
    }
  }

  /** What is binned, the designated victim and the top chunk decide where a block is, how large it is, and the designated victim
      after it. */
  lemma AllottedOne(k: Stock, top: int, n: nat, r: int, size: nat, dv': int, dvSize': nat,
                    q: int, size2: nat, dv2: int, dvSize2: nat)
    requires Allotted(k, top, n, r, size, dv', dvSize') && Allotted(k, top, n, q, size2, dv2, dvSize2)
    requires r != 0 && q != 0 && (n < SIZE_LIMIT || !BinFits(k.own, n))
    ensures r == q && size == size2 && dv' == dv2 && dvSize' == dvSize2
  {
    hide Serves;
    if Serves(k, n, r - PAYLOAD) && Serves(k, n, q - PAYLOAD) {
      ServesOne(k, n, r - PAYLOAD, q - PAYLOAD);
    }
  }

  lemma RequestWord(n: nat)
    ensures n < REQUEST_LIMIT ==> n + PAGE - 1 < SIZE_T_LIMIT
    ensures n < MIN_LARGE ==> n < REQUEST_LIMIT
  {
  }

  /** The first attempt came to nothing. */
  lemma AnswerLater(m: Mem, cs: ChunkMap, m1: Mem, cs1: ChunkMap, m': Mem, cs': ChunkMap, r: int, n: nat)
    requires Answer(m, cs, m1, cs1, 0, n) && Answer(m1, cs1, m', cs', r, n)
    ensures Answer(m, cs, m', cs', r, n)
  {
    LiveTrans(m, cs, m1, cs1, m', cs', 0);
  }

  /** kmalloc: a block of at least size bytes, or NULL, exactly when there is no room and the pager can not make any.
      Sizes whose rounding wraps are refused.  From 12 megabytes on the outcome is undefined unless a binned chunk fits. */
  method KMalloc(s: KmState, size: nat) returns (r: int, undefined: bool)
    requires (s.heapStart == 0 || Valid(s)) && size < SIZE_T_LIMIT
    modifies s`mem, s`chunks, s`links, s`own, s`ring, s`shape, s`sbin, s`sbinmap, s`tbin, s`tbinmap, s`dv, s`dvSize
    modifies s`top, s`topSize, s`heapSize, s.pager
    ensures old(s.heapStart) != 0 ==> Valid(s)
    ensures s.heapStart == 0 || RequestOverflow(size) ==> r == 0 && s.mem == old(s.mem) && s.chunks == old(s.chunks)
    ensures undefined <==> s.heapStart != 0 && !RequestOverflow(size) && BeyondBins(old(s.own), RequestToSize(size))
    ensures undefined ==> r == 0 && s.mem == old(s.mem) && s.chunks == old(s.chunks)
    ensures Answer(old(s.mem), old(s.chunks), s.mem, s.chunks, r, RequestToSize(size))
    ensures r != 0 ==> r - PAYLOAD in Live(s.chunks) && size <= Live(s.chunks)[r - PAYLOAD] - HEADER
    ensures s.heapStart != 0 && !RequestOverflow(size) && !undefined ==>
              (r == 0 <==> old(NoRoom(s, RequestToSize(size))) && !old(Extensible(s, RequestToSize(size))))
    ensures EndOf(s) == if s.heapStart == 0 || RequestOverflow(size) then old(EndOf(s))
                        else AllocatedEnd(old(s.own), old(s.dvSize), old(EndOf(s)), RequestToSize(size), true)
    ensures GrownFor(old(s.topSize), RequestToSize(size), old(s.heapSize), s.heapSize)
    ensures Allotted(old(StockOf(s)), old(s.top), RequestToSize(size), r, SizeAt(s.chunks, r - PAYLOAD), s.dv, s.dvSize)
  {
    hide *;
    NotGrown(s.topSize, RequestToSize(size), s.heapSize);
    AllottedIs(StockOf(s), s.top, RequestToSize(size), 0, SizeAt(s.chunks, 0 - PAYLOAD), s.dv, s.dvSize);
    StockIs(s);
    LiveSame(s.mem, s.chunks);
    AnswerNull(s.mem, s.chunks, s.mem, RequestToSize(size));
    if s.heapStart == 0 || RequestOverflow(size) {
      return 0, false;
    }
    var chunkSize := RequestToSize(size);
    RequestToSizeRounds(size);
    r, undefined := KmallocIntern(s, chunkSize, true);
    if r != 0 {
      Capacity(old(s.mem), old(s.chunks), s.mem, s.chunks, r, chunkSize, size);
    }
  }

  lemma Capacity(m: Mem, cs: ChunkMap, m': Mem, cs': ChunkMap, r: int, n: nat, size: nat)
    requires Answer(m, cs, m', cs', r, n) && r != 0 && size + 4 <= n
    ensures r - PAYLOAD in Live(cs') && size <= Live(cs')[r - PAYLOAD] - HEADER
  {
    var a := r - PAYLOAD;
    assert a in Live(cs)[a := cs'[a].size];
  }

  // ----- kmalloc_init

  function EmptyBins(): seq<int> {
    seq(NBINS, _ => 0)
  }

  ghost predicate Blank(s: KmState)
    reads s`own, s`ring, s`shape, s`chunks, s`sbin, s`tbin, s`sbinmap, s`tbinmap, s`dv, s`dvSize
  {
    && s.own == map[] && s.ring == map[] && s.shape == map[] && s.chunks == map[]
    && s.sbin == EmptyBins() && s.tbin == EmptyBins() && s.sbinmap == 0 && s.tbinmap == 0
    && s.dv == 0 && s.dvSize == 0
  }

  lemma BlankLists(s: KmState)
    requires Blank(s)
    ensures ListsOK(s.own, s.links, s.ring, s.shape) && HeadsOK(s.ring, s.shape, s.sbin, s.tbin, s.sbinmap, s.tbinmap)
    ensures OwnFree(s.own, s.chunks) && BinnedBut(s.own, s.chunks, s.dv, 0) && VictimOK(s.chunks, s.dv, s.dvSize)
    ensures s.own == map[] && s.chunks == map[]
  {
    forall i: nat
      ensures !Bit(0, i)
    {
      NoBits(i);
    }
  }

  /** The header, self links and footer of the first top chunk, and the dummy header behind it. */
  function InitWords(m: Mem, top: int, size: nat): Mem {
    m[top + HEADER := size + PINUSE][top + Offset(Next) := top][top + Offset(Prev) := top]
     [top + size := size][top + size + HEADER := 0]
  }

  lemma InitWordsHold(m: Mem, start: nat, size: nat)
    requires Mapped(m, start, start + size + 8) && size >= MIN_CHUNK
    ensures var m' := InitWords(m, start, size);
            && Mapped(m', start, start + size + 8)
            && W(m', start + HEADER) == size + PINUSE && W(m', start + size) == size && W(m', start + size + HEADER) == 0
  {
  }

  lemma TopOnly(m: Mem, start: nat, topSize: nat)
    requires 0 < start && start % 8 == 0 && MIN_CHUNK <= topSize <= SIZE_LIMIT - 8 && topSize % 8 == 0
    requires Mapped(m, start, start + topSize + 8)
    requires W(m, start + HEADER) == topSize + PINUSE && W(m, start + topSize) == topSize
    requires W(m, start + topSize + HEADER) == 0
    ensures HeapOK(m, Heap(map[], start, topSize, start, start + topSize + 8, 0, 0))
  {
  }

  /** The heap starts at a chunk boundary and is a whole number of pages, at most 2^24 bytes. */
  predicate HeapArgs(addr: nat, size: nat) {
    addr % 8 == 0 && addr + 7 < SIZE_T_LIMIT && size % 4096 == 0 && size <= SIZE_LIMIT
  }

  /** The heap right after initialisation: one top chunk, no block. */
  ghost predicate Initial(s: KmState, addr: int, size: nat)
    reads s, s.pager
  {
    && Valid(s) && s.heapStart == addr && s.heapSize == s.initialHeapSize == size
    && s.chunks == map[] && s.own == map[] && s.top == addr && s.topSize + 8 == size && s.dvSize == 0
  }

  /** The whole heap becomes the top chunk. */
  method InstallTop(s: KmState, top: nat, size: nat)
    requires top > 0 && size > 0 && HeapArgs(top, size) && Mapped(s.mem, top, top + size)
    requires PagerOK(s.pager, top, s.pager.Account()) && s.pager.heapSize == size
    modifies s`mem, s`heapStart, s`heapSize, s`initialHeapSize, s`top, s`topSize
    modifies s`sbin, s`tbin, s`sbinmap, s`tbinmap, s`dv, s`dvSize, s`own, s`ring, s`shape, s`chunks, s`frames
    ensures Initial(s, top, size) && s.frames == s.pager.Account()
  {
    hide *;
    InitSizes(top, size);
    BlankHeap(s.mem, top, size, s.links);
    var topSize := ChunkFloor(size - 8);
    s.frames := s.pager.Account();
    s.mem := InitWords(s.mem, top, topSize);
    s.heapStart, s.heapSize, s.initialHeapSize := top, size, size;
    ClearBins(s);
    s.top, s.topSize := top, topSize;
    FoldSizes(s);
    FoldInitial(s);
  }

  /** kmalloc_init: the whole heap becomes the top chunk, unless there is no room for one. */
  method KmallocInit(s: KmState, addr: nat, size: nat)
    requires s.heapStart == 0 && Mapped(s.mem, addr, addr + size)
    requires HeapArgs(addr, size)
    requires addr != 0 && size != 0 ==> PagerOK(s.pager, addr, s.pager.Account()) && s.pager.heapSize == size
    modifies s`mem, s`heapStart, s`heapSize, s`initialHeapSize, s`top, s`topSize
    modifies s`sbin, s`tbin, s`sbinmap, s`tbinmap, s`dv, s`dvSize, s`own, s`ring, s`shape, s`chunks, s`frames
    ensures if addr == 0 || size == 0 then s.heapStart == 0 else Initial(s, addr, size) && s.frames == s.pager.Account()
  {
    hide *;
    if addr == 0 {
      return;
    }
    InitSizes(addr, size);
    var top := ChunkAlign(addr);
    var offset := top - addr;
    if offset + MIN_CHUNK + 8 > size {
      return;
    }
    InstallTop(s, top, size - offset);
  }

  lemma FoldInitial(s: KmState)
    requires Blank(s) && s.topSize + 8 == s.heapSize == s.initialHeapSize && s.heapStart == s.top
    requires Stored(s.mem, map[], s.links, s.heapStart, s.heapStart + s.heapSize)
    requires HeapOK(s.mem, Heap(map[], s.top, s.topSize, s.heapStart, s.heapStart + s.heapSize, 0, 0))
    requires SizesAgree(s)
    ensures Initial(s, s.heapStart, s.heapSize)
  {
    hide HeapOK, Stored, ListsOK, HeadsOK, BinnedBut, VictimOK, OwnFree, SizesAgree, Valid;
    BlankLists(s);
    FoldBinsBy(s);
    FoldValid(s);
  }

  /** All bins, bitmaps and the designated victim are emptied. */
  method ClearBins(s: KmState)
    modifies s`sbin, s`tbin, s`sbinmap, s`tbinmap, s`dv, s`dvSize, s`own, s`ring, s`shape, s`chunks
    ensures Blank(s)
  {
    s.sbinmap, s.tbinmap := 0, 0;
    s.sbin, s.tbin := EmptyBins(), EmptyBins();
    s.dv, s.dvSize := 0, 0;
    s.own, s.ring, s.shape, s.chunks := map[], map[], map[], map[];
  }

  /** CHUNKALIGN */
  function ChunkAlign(x: nat): nat {
    (x + 7) / 8 * 8
  }

  /** CHUNKFLOOR */
  function ChunkFloor(x: nat): nat {
    x / 8 * 8
  }

  lemma InitSizes(start: nat, size: nat)
    requires HeapArgs(start, size)
    ensures ChunkAlign(start) == start && (size == 0 <==> MIN_CHUNK + 8 > size) && SizesOK(size, size, size)
    ensures size > 0 ==> size >= 8 && ChunkFloor(size - 8) == size - 8 >= MIN_CHUNK && (size - 8) % 8 == 0
  {
    var pages := size / 4096;
    assert size == 8 * (512 * pages);
    if size > 0 {
      assert size - 8 == 8 * (512 * pages - 1);
    }
  }

  lemma BlankHeap(m: Mem, start: nat, size: nat, k: Links)
    requires start > 0 && size > 0 && HeapArgs(start, size) && Mapped(m, start, start + size)
    ensures size >= 8
    ensures HeapOK(InitWords(m, start, size - 8), Heap(map[], start, size - 8, start, start + size, 0, 0))
    ensures Stored(InitWords(m, start, size - 8), map[], k, start, start + size)
  {
    hide HeapOK, InitWords, Mapped, ChunkAlign, ChunkFloor, SizesOK;
    InitSizes(start, size);
    InitWordsHold(m, start, size - 8);
    TopOnly(InitWords(m, start, size - 8), start, size - 8);
  }
}
