/**
 The allocator's state and the chunk layout in memory.  A chunk at address x has its header at x + 4;
 a binned chunk keeps its links in its own payload, from x + 8 on.  The word at x is the footer of
 the chunk before it.
 */
module HeapState {
  import opened Bits
  import opened BinIndex
  import opened Trie
  import opened FreeLists
  import opened PagerOps

  /** The word stored at each mapped address. */
  type Mem = map<int, int>

  function W(m: Mem, a: int): int {
    if a in m then m[a] else 0
  }

  function Offset(f: Field): int {
    match f
    case Next => 8
    case Prev => 12
    case Left => 16
    case Right => 20
    case Parent => 24
  }

  const HEADER := 4
  const INDEX := 28
  const PAYLOAD := 8
  const PINUSE := 1
  const CINUSE := 2

  /** A chunk: its size, whether it is in use, and whether the chunk before it is. */
  datatype Chunk = Chunk(size: nat, used: bool, pinuse: bool)

  type ChunkMap = map<int, Chunk>

  /** Small chunks have room for ring links only. */
  predicate Has(size: nat, f: Field) {
    f == Next || f == Prev || size >= MIN_LARGE
  }

  ghost predicate Mapped(m: Mem, lo: int, hi: int) {
    forall w :: lo <= w <= hi - 4 ==> w in m
  }

  ghost predicate SizeOK(s: nat) {
    MIN_CHUNK <= s < SIZE_LIMIT && s % 8 == 0
  }

  /** The chunk with its header and the footer and header behind it is inside the heap. */
  ghost predicate Placed(x: int, s: nat, lo: int, hi: int) {
    lo <= x && x + s + 8 <= hi
  }

  ghost predicate Apart(own: map<int, nat>) {
    forall x, y :: x in own && y in own && x != y ==> x + own[x] <= y || y + own[y] <= x
  }

  /** A binned chunk's header says: its size, free, previous chunk in use. */
  ghost predicate FreeHeader(m: Mem, x: int, s: nat) {
    W(m, x + HEADER) == s + PINUSE && (s >= MIN_LARGE ==> W(m, x + INDEX) == CalcTbin(s))
  }

  ghost predicate LinksStored(m: Mem, own: map<int, nat>, k: Links) {
    forall x, f :: x in own && Has(own[x], f) ==> Get(k, x, f) == W(m, x + Offset(f))
  }

  /** Where the chunks on the free lists lie, and that their links are the words in memory. */
  ghost predicate Stored(m: Mem, own: map<int, nat>, k: Links, lo: int, hi: int) {
    && 0 < lo
    && Mapped(m, lo, hi)
    && Apart(own)
    && (forall x :: x in own ==> SizeOK(own[x]) && Placed(x, own[x], lo, hi))
    && (forall x :: x in own ==> FreeHeader(m, x, own[x]))
    && LinksStored(m, own, k)
  }

  /** Where the links and the bin index at the start of a binned chunk's payload end. */
  function FieldsEnd(size: nat): nat {
    if size >= MIN_LARGE then 32 else 16
  }

  /** w is not a link or index word of a binned chunk. */
  ghost predicate Outside(own: map<int, nat>, w: int) {
    forall x :: x in own ==> w < x + PAYLOAD || x + FieldsEnd(own[x]) <= w
  }

  /** Only link and index words of binned chunks were written. */
  ghost predicate KeptOutside(m: Mem, m': Mem, own: map<int, nat>) {
    m'.Keys == m.Keys && forall w :: w in m && Outside(own, w) ==> m'[w] == m[w]
  }

  /** w is not the header, a link or the index of a binned chunk. */
  ghost predicate Clear(own: map<int, nat>, w: int) {
    forall x :: x in own ==> w < x + HEADER || x + FieldsEnd(own[x]) <= w
  }

  lemma StoreElsewhere(m: Mem, own: map<int, nat>, k: Links, lo: int, hi: int, w: int, v: int)
    requires Stored(m, own, k, lo, hi) && Clear(own, w)
    ensures Stored(m[w := v], own, k, lo, hi)
  {
    StoredFrame(m, m[w := v], own, k, lo, hi);
  }

  lemma StoreLink(m: Mem, own: map<int, nat>, k: Links, lo: int, hi: int, x: int, f: Field, v: int)
    requires Stored(m, own, k, lo, hi) && x in own && Has(own[x], f)
    ensures x + Offset(f) in m
    ensures Stored(m[x + Offset(f) := v], own, Put(k, x, f, v), lo, hi)
    ensures KeptOutside(m, m[x + Offset(f) := v], own)
  {
    assert x + Offset(f) in m by {
      assert SizeOK(own[x]) && Placed(x, own[x], lo, hi);
    }
    var m' := m[x + Offset(f) := v];
    forall y | y in own
      ensures FreeHeader(m', y, own[y])
    {
      assert FreeHeader(m, y, own[y]);
      assert SizeOK(own[x]) && SizeOK(own[y]);
    }
    forall y, g | y in own && Has(own[y], g)
      ensures Get(Put(k, x, f, v), y, g) == W(m', y + Offset(g))
    {
      assert SizeOK(own[x]) && SizeOK(own[y]);
      assert Get(k, y, g) == W(m, y + Offset(g));
    }
    forall w | w in m && Outside(own, w)
      ensures m'[w] == m[w]
    {
      assert SizeOK(own[x]);
    }
  }

  lemma StoredShrinks(m: Mem, own: map<int, nat>, k: Links, lo: int, hi: int, x: int)
    requires Stored(m, own, k, lo, hi) && x in own
    ensures Stored(m, own - {x}, k, lo, hi) && FreeHeader(m, x, own[x])
  {
  }

  lemma KeptSame(m: Mem, own: map<int, nat>)
    ensures KeptOutside(m, m, own)
  {
  }

  lemma KeptTrans(m: Mem, m': Mem, m'': Mem, own: map<int, nat>)
    requires KeptOutside(m, m', own) && KeptOutside(m', m'', own)
    ensures KeptOutside(m, m'', own)
  {
  }

  lemma LoadLink(m: Mem, own: map<int, nat>, k: Links, lo: int, hi: int, x: int, f: Field)
    requires Stored(m, own, k, lo, hi) && x in own && Has(own[x], f)
    ensures x + Offset(f) in m && m[x + Offset(f)] == Get(k, x, f)
  {
    assert SizeOK(own[x]) && Placed(x, own[x], lo, hi);
    assert Get(k, x, f) == W(m, x + Offset(f));
  }

  lemma LoadHeader(m: Mem, own: map<int, nat>, k: Links, lo: int, hi: int, x: int)
    requires Stored(m, own, k, lo, hi) && x in own
    ensures x + HEADER in m && m[x + HEADER] == own[x] + PINUSE && SizeOK(own[x])
  {
    assert FreeHeader(m, x, own[x]) && SizeOK(own[x]) && Placed(x, own[x], lo, hi);
  }

  lemma LargeHas(s: nat)
    requires s >= MIN_LARGE
    ensures forall f :: Has(s, f)
  {
  }

  lemma StoredAddress(m: Mem, own: map<int, nat>, k: Links, lo: int, hi: int, x: int)
    requires Stored(m, own, k, lo, hi) && x in own
    ensures 0 < lo <= x && SizeOK(own[x]) && x + own[x] + 8 <= hi
  {
    assert Placed(x, own[x], lo, hi);
  }

  /** The free lists only depend on the header, links and index of each binned chunk. */
  lemma StoredFrame(m: Mem, m': Mem, own: map<int, nat>, k: Links, lo: int, hi: int)
    requires Stored(m, own, k, lo, hi) && Mapped(m', lo, hi)
    requires forall x, w :: x in own && x + HEADER <= w < x + FieldsEnd(own[x]) ==> W(m', w) == W(m, w)
    ensures Stored(m', own, k, lo, hi)
  {
    forall y | y in own
      ensures FreeHeader(m', y, own[y])
    {
      assert FreeHeader(m, y, own[y]) && SizeOK(own[y]);
    }
    forall y, g | y in own && Has(own[y], g)
      ensures Get(k, y, g) == W(m', y + Offset(g))
    {
      assert SizeOK(own[y]);
    }
  }

  class KmState {
    var mem: Mem
    var heapStart: int
    var heapSize: nat
    var initialHeapSize: nat
    var sbinmap: nat
    var tbinmap: nat
    var sbin: seq<int>
    var tbin: seq<int>
    var dv: int
    var dvSize: nat
    var top: int
    var topSize: nat

    /** Size of each chunk on the free lists, their links, their rings and the trie of the large sizes. */
    ghost var own: map<int, nat>
    ghost var links: Links
    ghost var ring: Rings
    ghost var shape: Shape

    /** All chunks, by address. */
    ghost var chunks: ChunkMap

    /** Calls of the abort callback so far. */
    var aborts: nat

    /** The pager, which maps and unmaps the heap's pages. */
    const pager: Pager

    /** The frames the pager accounts for. */
    ghost var frames: set<int>

    /** The state before kmalloc_init: all zero, and memory holding anything. */
    constructor (p: Pager, m: Mem)
      ensures heapStart == 0 && heapSize == 0 && aborts == 0 && mem == m && pager == p
    {
      pager := p;
      mem, heapStart, heapSize, initialHeapSize, sbinmap, tbinmap := m, 0, 0, 0, 0, 0;
      sbin, tbin, dv, dvSize, top, topSize, aborts := [], [], 0, 0, 0, 0, 0;
      own, links, ring, shape, chunks, frames := map[], map[], map[], map[], map[], {};
    }

    /** The free-list invariant: every binned chunk is on the one list its size selects, nothing else is
        on a list, and each bitmap bit is set exactly when its bin is occupied. */
    ghost predicate BinsOK()
      reads this`mem, this`own, this`links, this`ring, this`shape, this`heapStart, this`heapSize
      reads this`sbin, this`tbin, this`sbinmap, this`tbinmap
    {
      && Stored(mem, own, links, heapStart, heapStart + heapSize)
      && ListsOK(own, links, ring, shape)
      && HeadsOK(ring, shape, sbin, tbin, sbinmap, tbinmap)
    }

    /** Writes a word that no binned chunk owns. */
    method Poke(w: int, v: int)
      requires BinsOK() && Clear(own, w) && heapStart <= w <= heapStart + heapSize - 4
      modifies this`mem
      ensures BinsOK() && mem == old(mem)[w := v]
    {
      StoreElsewhere(mem, own, links, heapStart, heapStart + heapSize, w, v);
      mem := mem[w := v];
    }

    method SetLink(x: int, f: Field, v: int)
      requires Stored(mem, own, links, heapStart, heapStart + heapSize) && x in own && Has(own[x], f)
      modifies this`mem, this`links
      ensures Stored(mem, own, links, heapStart, heapStart + heapSize) && links == Put(old(links), x, f, v)
      ensures KeptOutside(old(mem), mem, own)
    {
      StoreLink(mem, own, links, heapStart, heapStart + heapSize, x, f, v);
      mem := mem[x + Offset(f) := v];
      links := Put(links, x, f, v);
    }

    function GetLink(x: int, f: Field): (v: int)
      requires Stored(mem, own, links, heapStart, heapStart + heapSize) && x in own && Has(own[x], f)
      reads this`mem, this`own, this`links, this`heapStart, this`heapSize
      ensures v == Get(links, x, f)
    {
      LoadLink(mem, own, links, heapStart, heapStart + heapSize, x, f);
      mem[x + Offset(f)]
    }

    /** GETCHUNKSIZE */
    function GetSize(x: int): (s: nat)
      requires Stored(mem, own, links, heapStart, heapStart + heapSize) && x in own
      reads this`mem, this`own, this`links, this`heapStart, this`heapSize
      ensures s == own[x]
    {
      LoadHeader(mem, own, links, heapStart, heapStart + heapSize, x);
      mem[x + HEADER] / 8 * 8
    }
  }
}
