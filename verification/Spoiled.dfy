/** unbin_chunk on a chunk of which a link or the index has been overwritten by a header (kmalloc_util.c). */
module Spoiled {
  import opened Bits
  import opened BinIndex
  import opened Trie
  import opened FreeLists
  import opened HeapState
  import opened TreeSearch
  import opened TreeBins
  import opened Bins
  import opened Chunks

  /** The header of a remainder that starts diff bytes into a binned chunk lies on a link or on the index. */
  predicate HeaderOnFields(size: nat, diff: nat) {
    PAYLOAD <= diff + HEADER < FieldsEnd(size)
  }

  lemma HeadIsChunk(own: map<int, nat>, k: Links, ring: Rings, t: Shape, n: Node)
    requires ListsOK(own, k, ring, t)
    ensures HeadOf(ring, t, n) == 0 || HeadOf(ring, t, n) in own
  {
    if n in t {
      NodeLinks(own, k, ring, t, n);
    }
  }

  /** The links of a binned chunk lead to binned chunks. */
  lemma LinkIsChunk(own: map<int, nat>, k: Links, ring: Rings, t: Shape, x: int, f: Field)
    requires ListsOK(own, k, ring, t) && x in own && (own[x] >= MIN_LARGE || f == Next || f == Prev)
    ensures Get(k, x, f) == 0 || Get(k, x, f) in own
  {
    var i :| 0 <= i < |ring[own[x]]| && ring[own[x]][i] == x;
    ChunkRing(own, k, ring, t, x, i);
    if f != Next && f != Prev && i == 0 {
      var n, j := FindChunk(own, k, ring, t, x);
      assert HeadOf(ring, t, n) == x;
      NodeLinks(own, k, ring, t, n);
      hide ListsOK;
      HeadIsChunk(own, k, ring, t, n.Left());
      HeadIsChunk(own, k, ring, t, n.Right());
      HeadIsChunk(own, k, ring, t, n.Parent());
    } else if f != Next && f != Prev {
      assert Unlinked(k, ring[own[x]][i]);
    }
  }

  /** No chunk is at this address: chunks are aligned. */
  predicate NoChunk(p: int) {
    p % 8 != 0
  }

  /** Which link a header written diff bytes into a chunk falls on. */
  function SpoiledField(diff: nat): Field {
    if diff == 8 then Prev else Right
  }

  /** A header v, written diff bytes into the binned chunk x, has fallen on one of its fields; with the links k0 from
      before that, all lists are well formed. */
  ghost predicate SpoiledBy(s: KmState, x: int, diff: nat, v: int, k0: Links)
    reads s, s.pager
  {
    && ListsOK(s.own, k0, s.ring, s.shape) && HeadsOK(s.ring, s.shape, s.sbin, s.tbin, s.sbinmap, s.tbinmap)
    && x in s.own && HeaderOnFields(s.own[x], diff) && diff % 8 == 0 && diff > 0 && v % 8 == 1 && v > 8
    && (diff == 24 ==> v > NBINS) && SizeOK(s.own[x]) && Placed(x, s.own[x], s.heapStart, s.heapStart + s.heapSize)
    && (forall y :: y in s.own ==> y % 8 == 0) && Mapped(s.mem, s.heapStart, s.heapStart + s.heapSize)
    && (if diff == 24 then FreeHeaderOf(s.mem, x, s.own[x]) && W(s.mem, x + INDEX) == v
        else Stored(s.mem, s.own, s.links, s.heapStart, s.heapStart + s.heapSize)
             && s.links == Put(k0, x, SpoiledField(diff), v))
  }

  ghost predicate FreeHeaderOf(m: Mem, x: int, size: nat) {
    W(m, x + HEADER) == size + PINUSE
  }

  /** What the code reads of the chunk. */
  lemma SpoiledWords(s: KmState, x: int, diff: nat, v: int, k0: Links)
    requires SpoiledBy(s, x, diff, v, k0)
    ensures x in s.own && SizeOK(s.own[x]) && x + HEADER in s.mem && SizeOf(s.mem[x + HEADER]) == s.own[x]
    ensures x + Offset(Next) in s.mem && x + Offset(Prev) in s.mem
    ensures s.own[x] < MIN_LARGE ==> diff == 8
    ensures s.own[x] >= MIN_LARGE ==>
              && x + INDEX in s.mem && (diff == 24 ==> s.mem[x + INDEX] >= NBINS)
              && (diff != 24 ==> s.mem[x + INDEX] == CalcTbin(s.own[x]) && s.mem[x + INDEX] < NBINS)
              && x + Offset(Left) in s.mem && x + Offset(Right) in s.mem && x + Offset(Parent) in s.mem
              && (diff == 16 ==> NoChunk(s.mem[x + Offset(Right)]))
              && (diff == 8 ==> s.mem[x + Offset(Right)] == Get(k0, x, Right) && !NoChunk(Get(k0, x, Right)))
    ensures diff == 8 || diff == 16 || diff == 24
    ensures diff != 24 ==> s.mem[x + Offset(Next)] == Get(k0, x, Next)
    ensures diff == 8 ==> NoChunk(s.mem[x + Offset(Prev)]) && s.mem[x + Offset(Prev)] == v && v != x
    ensures diff == 16 ==> s.mem[x + Offset(Prev)] == Get(k0, x, Prev)
    ensures Get(k0, x, Next) == x <==> Get(k0, x, Prev) == x
  {
    hide *;
    SpoiledIs(s, x, diff, v, k0);
    SpoiledPlaces(s, x, diff, v, k0);
    SpoiledLists(s.own, k0, s.ring, s.shape, x);
    Offsets();
    if diff != 24 {
      SpoiledLinks(s.mem, s.own, s.links, s.heapStart, s.heapStart + s.heapSize, x, k0, SpoiledField(diff), v);
      AllLinks(s.own[x], SpoiledField(diff));
    }
  }

  lemma Offsets()
    ensures Offset(Next) == 8 && Offset(Prev) == 12 && Offset(Left) == 16 && Offset(Right) == 20 && Offset(Parent) == 24
    ensures HEADER == 4 && INDEX == 28 && PINUSE == 1 && NBINS == 32 && MIN_LARGE == 256
    ensures forall p {:trigger NoChunk(p)} :: NoChunk(p) <==> p % 8 != 0
  {
  }

  lemma AllLinks(size: nat, f: Field)
    ensures HeapState.Has(size, Next) && HeapState.Has(size, Prev)
    ensures size >= MIN_LARGE ==> forall g :: HeapState.Has(size, g)
    ensures SpoiledField(8) == Prev && SpoiledField(16) == Right
  {
  }

  lemma SpoiledIs(s: KmState, x: int, diff: nat, v: int, k0: Links)
    requires SpoiledBy(s, x, diff, v, k0)
    ensures ListsOK(s.own, k0, s.ring, s.shape) && HeadsOK(s.ring, s.shape, s.sbin, s.tbin, s.sbinmap, s.tbinmap)
    ensures x in s.own && SizeOK(s.own[x]) && (forall y :: y in s.own ==> y % 8 == 0) && v % 8 == 1 && v > 8
    ensures diff == 8 || (s.own[x] >= MIN_LARGE && (diff == 16 || diff == 24))
    ensures s.own[x] % 8 == 0 && (diff == 24 ==> W(s.mem, x + HEADER) == s.own[x] + PINUSE && W(s.mem, x + INDEX) == v > NBINS)
    ensures diff != 24 ==> Stored(s.mem, s.own, s.links, s.heapStart, s.heapStart + s.heapSize)
                           && s.links == Put(k0, x, SpoiledField(diff), v)
  {
    hide ListsOK, HeadsOK, Stored;
  }

  lemma SpoiledPlaces(s: KmState, x: int, diff: nat, v: int, k0: Links)
    requires SpoiledBy(s, x, diff, v, k0)
    ensures x + 4 in s.mem && x + 8 in s.mem && x + 12 in s.mem
    ensures s.own[x] >= MIN_LARGE ==> x + 16 in s.mem && x + 20 in s.mem && x + 24 in s.mem && x + 28 in s.mem
    ensures forall w :: w in s.mem ==> W(s.mem, w) == s.mem[w]
    ensures SizeOf(s.own[x] + PINUSE) == s.own[x]
    ensures s.own[x] >= MIN_LARGE ==> CalcTbin(s.own[x]) < NBINS
  {
    hide ListsOK, HeadsOK, Stored, CalcTbin;
    if s.own[x] >= MIN_LARGE {
      LargeBin(s.own[x]);
    }
  }

  lemma SpoiledLists(own: map<int, nat>, k: Links, ring: Rings, t: Shape, x: int)
    requires ListsOK(own, k, ring, t) && x in own && forall y :: y in own ==> y % 8 == 0
    ensures Get(k, x, Next) == x <==> Get(k, x, Prev) == x
    ensures own[x] >= MIN_LARGE ==> Get(k, x, Right) % 8 == 0
  {
    var i :| 0 <= i < |ring[own[x]]| && ring[own[x]][i] == x;
    ChunkRing(own, k, ring, t, x, i);
    if own[x] >= MIN_LARGE {
      LinkIsChunk(own, k, ring, t, x, Right);
    }
    hide ListsOK;
  }

  lemma SpoiledLinks(m: Mem, own: map<int, nat>, k: Links, lo: int, hi: int, x: int, k0: Links, f: Field, v: int)
    requires Stored(m, own, k, lo, hi) && x in own && k == Put(k0, x, f, v)
    ensures W(m, x + HEADER) == own[x] + PINUSE && (own[x] >= MIN_LARGE ==> W(m, x + INDEX) == CalcTbin(own[x]))
    ensures forall g :: HeapState.Has(own[x], g) ==> W(m, x + Offset(g)) == if g == f then v else Get(k0, x, g)
  {
    assert FreeHeader(m, x, own[x]);
    forall g | HeapState.Has(own[x], g)
      ensures W(m, x + Offset(g)) == if g == f then v else Get(k0, x, g)
    {
      assert Get(k, x, g) == W(m, x + Offset(g));
    }
  }

  // ----- the chunk alone in its ring can still leave

  /** A small chunk alone in its ring: its bin becomes empty. */
  method LeaveSmall(s: KmState, x: int, ghost v: int, ghost k0: Links)
    requires SpoiledBy(s, x, 8, v, k0) && s.own[x] < MIN_LARGE && Get(k0, x, Next) == x
    modifies s`own, s`ring, s`sbin, s`sbinmap
    ensures s.BinsOK() && s.own == old(s.own) - {x}
  {
    hide *;
    ghost var own, ring0, sbin0 := s.own, s.ring, s.sbin;
    SpoiledIs(s, x, 8, v, k0);
    SpoiledWords(s, x, 8, v, k0);
    SmallHeadsOf(s);
    var index := SizeOf(s.mem[x + HEADER]) / 8;
    ghost var i := SmallDropped(own, k0, ring0, s.shape, sbin0, s.tbin, x);
    DropLinksDef(k0, x, sbin0[index]);
    s.sbin := s.sbin[index := 0];
    MarkEmptied(sbin0, s.sbin, s.sbinmap, index);
    UnmarkDef(s.sbin, s.sbinmap, index);
    s.sbinmap := ClearBit(s.sbinmap, index);
    StoredShrinks(s.mem, own, s.links, s.heapStart, s.heapStart + s.heapSize, x);
    PutElsewhere(k0, x, SpoiledField(8), v);
    ListsIgnore(own - {x}, k0, DropRing(ring0, own[x], i), s.shape, s.links, x);
    s.own := own - {x};
    s.ring := DropRing(ring0, own[x], i);
    FoldBins(s);
  }

  lemma PutElsewhere(k: Links, x: int, f: Field, v: int)
    ensures forall y, g :: y != x ==> Get(Put(k, x, f, v), y, g) == Get(k, y, g)
    ensures f == Prev ==> SameBut(k, Put(k, x, f, v), x)
    ensures SpoiledField(8) == Prev
  {
  }

  lemma SmallHeadsOf(s: KmState)
    requires HeadsOK(s.ring, s.shape, s.sbin, s.tbin, s.sbinmap, s.tbinmap)
    ensures SmallHeads(s.ring, s.sbin) && TreeHeads(s.ring, s.shape, s.tbin)
    ensures MapMatches(s.sbin, s.sbinmap) && MapMatches(s.tbin, s.tbinmap)
    ensures |s.sbin| == NBINS && |s.tbin| == NBINS
  {
  }

  /** A tree chunk alone in its ring leaves the tree. */
  method LeaveTree(s: KmState, x: int, ghost v: int, ghost k0: Links)
    requires SpoiledBy(s, x, 8, v, k0) && s.own[x] >= MIN_LARGE && Get(k0, x, Next) == x
    modifies s`mem, s`links, s`own, s`ring, s`shape, s`tbin, s`tbinmap
    ensures s.BinsOK() && s.own == old(s.own) - {x} && KeptOutside(old(s.mem), s.mem, old(s.own))
    ensures W(s.mem, x + Offset(Prev)) == W(old(s.mem), x + Offset(Prev))
  {
    hide *;
    ghost var own, ring0, t, tbin0 := s.own, s.ring, s.shape, s.tbin;
    SpoiledIs(s, x, 8, v, k0);
    SpoiledWords(s, x, 8, v, k0);
    SmallHeadsOf(s);
    LargeSizes(own[x]);
    ghost var n, i := WhereIs(own, k0, ring0, t, tbin0, CalcTbin(own[x]), x);
    TreeBinUsed(own, k0, ring0, t, tbin0, x);
    PutElsewhere(k0, x, SpoiledField(8), v);
    var index := s.mem[x + INDEX];
    RemoveSingle(s, x, index, n, k0);
    SmallUntouched(ring0, s.ring, s.sbin);
    MarkEmptied(tbin0, s.tbin, s.tbinmap, index);
    UnmarkDef(s.tbin, s.tbinmap, index);
    if s.tbin[index] == 0 {
      s.tbinmap := ClearBit(s.tbinmap, index);
    }
    FoldBins(s);
  }

  lemma LargeSizes(size: nat)
    requires SizeOK(size)
    ensures size % 8 == 0 && size < SIZE_LIMIT && (size >= MIN_LARGE ==> Large(size))
  {
  }

  /** unbin_chunk on a spoiled chunk.  The answer is whether the code goes through the header that it takes for a link or
      an index: it follows a pointer that leads to no chunk, or uses an index past the end of the array of bins.  It
      does, exactly unless the link is the chunk's prev and the chunk is alone in its ring; then it leaves its bin. */
  method UnbinSpoiled(s: KmState, x: int, ghost diff: nat, ghost v: int, ghost k0: Links) returns (fault: bool)
    requires SpoiledBy(s, x, diff, v, k0)
    modifies s`mem, s`links, s`own, s`ring, s`shape, s`sbin, s`sbinmap, s`tbin, s`tbinmap
    ensures fault <==> !(diff == 8 && Get(k0, x, Next) == x)
    ensures !fault ==> s.BinsOK() && s.own == old(s.own) - {x} && KeptOutside(old(s.mem), s.mem, old(s.own))
                       && W(s.mem, x + Offset(Prev)) == W(old(s.mem), x + Offset(Prev))
  {
    hide *;
    SpoiledIs(s, x, diff, v, k0);
    SpoiledWords(s, x, diff, v, k0);
    Offsets();
    KeptSame(s.mem, s.own);
    var next, prev := s.mem[x + 8], s.mem[x + 12];
    if SizeOf(s.mem[x + HEADER]) < MIN_LARGE {
      if next != x {
        // the next link of prev is written
        return NoChunk(prev);
      }
      LeaveSmall(s, x, v, k0);
      fault := false;
    } else {
      if s.mem[x + INDEX] >= NBINS {
        // the bin of this index is read
        return true;
      }
      var right := s.mem[x + 20];
      if next != x && prev != x {
        // the next link of prev is written, and if there is a right subtree its parent link, the chunk being taken for a
        // head of a ring in that case
        return NoChunk(prev) || NoChunk(right);
      }
      if NoChunk(right) {
        // the search for a leaf goes on there, or else the leaf found takes over the right subtree
        return true;
      }
      LeaveTree(s, x, v, k0);
      fault := false;
    }
  }
}
