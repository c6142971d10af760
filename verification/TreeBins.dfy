/** Inserting into and removing from the tree bins (kmalloc_tree_insert and kmalloc_tree_remove). */
module TreeBins {
  import opened Bits
  import opened BinIndex
  import opened Trie
  import opened FreeLists
  import opened HeapState
  import opened TreeSearch
  import DlList

  lemma RootsDiffer(i: nat, j: nat)
    requires Root(i) == Root(j)
    ensures i == j
  {
  }

  /** Rings of small sizes are the same. */
  ghost predicate SameSmall(ring: Rings, ring': Rings) {
    forall r :: r < MIN_LARGE ==> (r in ring <==> r in ring') && (r in ring ==> ring'[r] == ring[r])
  }

  // ----- what happens to the rings and the trees

  /** A chunk of that size goes to the end of its ring, or its size becomes a node. */
  ghost predicate TreeGains(ring: Rings, t: Shape, x: int, size: nat, ring': Rings, t': Shape) {
    if size in ring then ring' == ring[size := ring[size] + [x]] && t' == t
    else ring' == ring[size := [x]] && exists n :: n !in t && t' == t[n := size]
  }

  ghost predicate RingLoses(ring: Rings, x: int, size: nat, ring': Rings) {
    && size in ring
    && exists i :: 0 <= i < |ring[size]| && ring[size][i] == x && ring' == DropRing(ring, size, i)
  }

  /** A chunk of that size leaves its ring; with the last one its node goes. */
  ghost predicate TreeLoses(ring: Rings, t: Shape, x: int, size: nat, ring': Rings, t': Shape) {
    && RingLoses(ring, x, size, ring')
    && if |ring[size]| > 1 then t' == t else exists n :: n in t && t[n] == size && NodeGone(t, n, t')
  }

  /** A leaf just goes, the place of an inner node is taken by the leaf below it. */
  ghost predicate NodeGone(t: Shape, n: Node, t': Shape) {
    if IsLeaf(t, n) then t' == t - {n} else exists leaf :: LeafFor(t, n, leaf) && t' == t[n := t[leaf]] - {leaf}
  }

  ghost predicate LeafFor(t: Shape, n: Node, leaf: Node) {
    leaf in t && leaf != n && IsLeaf(t, leaf) && Below(n, leaf) && LeftFirst(t, n, leaf)
  }

  /** The way from n down to m goes left wherever there is a left child. */
  ghost predicate LeftFirst(t: Shape, n: Node, m: Node) {
    forall q :: q in t && Below(n, q) && Below(q, m) && q != m && q.Left() in t ==> Below(q.Left(), m)
  }

  lemma LeftFirstStarts(t: Shape, n: Node)
    ensures LeftFirst(t, n, n)
  {
    forall q | Below(n, q) && Below(q, n)
      ensures q == n
    {
    }
  }

  lemma LeftFirstStep(t: Shape, n: Node, m: Node)
    requires LeftFirst(t, n, m) && Below(n, m)
    ensures m.Left() in t ==> LeftFirst(t, n, m.Left())
    ensures m.Left() !in t ==> LeftFirst(t, n, m.Right())
  {
    var c := if m.Left() in t then m.Left() else m.Right();
    forall q | q in t && Below(n, q) && Below(q, c) && q != c && q.Left() in t
      ensures Below(q.Left(), c)
    {
      ShrHalf(c.prefix, q.depth - c.depth);
      if q == m {
        SelfBelow(c);
      } else {
        BelowChild(q.Left(), m);
      }
    }
  }

  lemma HeadLost(ring: Rings, t: Shape, x: int, size: nat, i: int)
    requires size in ring && 0 <= i < |ring[size]| && ring[size][i] == x
    ensures RingLoses(ring, x, size, DropRing(ring, size, i))
    ensures |ring[size]| > 1 ==> TreeLoses(ring, t, x, size, ring[size := DropAt(ring[size], i)], t)
  {
  }

  lemma NodeLost(ring: Rings, t: Shape, x: int, size: nat, n: Node, t': Shape)
    requires size in ring && ring[size] == [x] && n in t && t[n] == size && NodeGone(t, n, t')
    ensures TreeLoses(ring, t, x, size, ring - {size}, t')
  {
    HeadLost(ring, t, x, size, 0);
    hide RingLoses;
  }

  // ----- insert

  /** The descent of an insertion stands at depth d of the path. */
  ghost predicate InsertState(own: map<int, nat>, k: Links, ring: Rings, t: Shape, size: nat, top: int,
                              d: int, parent: int, cur: int)
  {
    && ListsOK(own, k, ring, t) && Large(size) && 2 <= Shr(size, top) < 4
    && 3 <= d + 1 <= top + 1 && (d == 2 ==> cur == 0)
    && Passed(t, size, top, d)
    && cur == HeadOf(ring, t, PathNode(size, d))
    && parent == if d == top then 0 else HeadOf(ring, t, PathNode(size, d + 1))
  }

  lemma InsertNode(own: map<int, nat>, k: Links, ring: Rings, t: Shape, size: nat, top: int,
                   d: int, parent: int, cur: int)
    requires InsertState(own, k, ring, t, size, top, d, parent, cur)
    ensures cur != 0 ==> cur in own && own[cur] >= MIN_LARGE && PathNode(size, d) in t && t[PathNode(size, d)] == own[cur]
    ensures parent != 0 ==> parent in own && own[parent] >= MIN_LARGE
    ensures parent == 0 <==> d == top
    ensures d >= 2
  {
    if cur != 0 {
      NodeLinks(own, k, ring, t, PathNode(size, d));
    }
    if d < top {
      NodeLinks(own, k, ring, t, PathNode(size, d + 1));
    }
  }

  lemma InsertStep(own: map<int, nat>, k: Links, ring: Rings, t: Shape, size: nat, top: int,
                   d: int, parent: int, cur: int)
    requires InsertState(own, k, ring, t, size, top, d, parent, cur) && cur != 0 && cur in own && own[cur] != size
    ensures d > 0
    ensures InsertState(own, k, ring, t, size, top, d - 1, cur, Get(k, cur, if Bit(size, d - 1) then Right else Left))
  {
    InsertNode(own, k, ring, t, size, top, d, parent, cur);
    NodeLinks(own, k, ring, t, PathNode(size, d));
    PathStep(size, d);
    ListsShape(own, k, ring, t);
    if d == 3 {
      PathNodeFree(t, size, d);
    }
  }

  /** A size that the path of its bin does not meet is not in the trie at all. */
  lemma NotStored(t: Shape, size: nat, top: int, d: int)
    requires ShapeOK(t) && Passed(t, size, top, d) && PathNode(size, d) !in t && 0 <= d <= top
    requires 2 <= Shr(size, top) < 4
    ensures size !in t.Values
  {
    if size in t.Values {
      var q :| q in t && t[q] == size;
      StoredOnPath(t, size, top, q);
      VacantBelow(t, size, top, d, q.depth);
    }
  }

  lemma StoredOnPath(t: Shape, size: nat, top: int, q: Node)
    requires ShapeOK(t) && q in t && t[q] == size && top >= 0 && 2 <= Shr(size, top) < 4
    ensures q == PathNode(size, q.depth) && q.depth <= top
  {
    Occupied(t, q);
    if q.depth > top {
      ShrShr(size, top, q.depth - top);
      ShrToOne(Shr(size, top), q.depth - top);
    }
  }

  /** The descent ends at a vacant node: the chunk is attached there. */
  lemma InsertEnds(own: map<int, nat>, k: Links, ring: Rings, t: Shape, size: nat, top: int,
                   d: int, parent: int, chunk: int)
    requires InsertState(own, k, ring, t, size, top, d, parent, 0) && chunk !in own && chunk > 0
    ensures var n := PathNode(size, d);
            && size !in ring && n !in t
            && parent == (if n.IsRoot() then 0 else HeadOf(ring, t, n.Parent()))
            && (n.IsRoot() <==> d == top)
            && (!n.IsRoot() ==> (n == n.Parent().Right() <==> Bit(size, d)))
            && ListsOK(own[chunk := size], Attach(k, chunk, n, parent), ring[size := [chunk]], t[n := size])
  {
    var n := PathNode(size, d);
    ListsShape(own, k, ring, t);
    if n in t {
      NodeLinks(own, k, ring, t, n);
    }
    NotStored(t, size, top, d);
    PathRoot(size, top, d);
    assert n.prefix >= 2 by {
      ShrShr(size, d, top - d);
      ShrLe(Shr(size, d), top - d);
    }
    if d < top {
      PathStep(size, d + 1);
    }
    assert size !in ring by {
      SizesInTrie(own, k, ring, t, size);
    }
    AttachLarge(own, k, ring, t, chunk, size, n);
    hide ListsOK;
  }

  lemma InsertStart(own: map<int, nat>, k: Links, ring: Rings, t: Shape, tbin: seq<int>, size: nat, index: nat)
    requires ListsOK(own, k, ring, t) && TreeHeads(ring, t, tbin) && Large(size) && index == CalcTbin(size) && index < NBINS
    ensures PathNode(size, TbinDepth(index)) == Root(index) && |tbin| == NBINS && size >= MIN_LARGE
    ensures InsertState(own, k, ring, t, size, TbinDepth(index), TbinDepth(index), 0, tbin[index])
  {
    TbinPrefix(size);
    assert PathNode(size, TbinDepth(index)) == Root(index);
    assert tbin[index] == HeadOf(ring, t, Root(index));
    hide ListsOK, HeadOf, Large, CalcTbin;
  }

  /** chunk->next = chunk->prev = chunk; chunk->left = chunk->right = NULL */
  method MakeFresh(s: KmState, chunk: int)
    requires Stored(s.mem, s.own, s.links, s.heapStart, s.heapStart + s.heapSize) && chunk in s.own && s.own[chunk] >= MIN_LARGE
    modifies s`mem, s`links
    ensures Stored(s.mem, s.own, s.links, s.heapStart, s.heapStart + s.heapSize) && KeptOutside(old(s.mem), s.mem, s.own)
    ensures s.links == Fresh(old(s.links), chunk)
    ensures forall y, f :: y != chunk ==> Get(s.links, y, f) == Get(old(s.links), y, f)
  {
    hide Stored;
    s.SetLink(chunk, Next, chunk);
    s.SetLink(chunk, Prev, chunk);
    s.SetLink(chunk, Left, 0);
    s.SetLink(chunk, Right, 0);
  }

  /** The chunk hangs below its parent, or becomes the root (parent 0). */
  method Hang(s: KmState, chunk: int, parent: int, isRight: bool, ghost n: Node, ghost k0: Links)
    requires Stored(s.mem, s.own, s.links, s.heapStart, s.heapStart + s.heapSize) && chunk in s.own && s.own[chunk] >= MIN_LARGE && s.links == Fresh(k0, chunk)
    requires !n.IsRoot() ==> parent in s.own && s.own[parent] >= MIN_LARGE && (isRight <==> n == n.Parent().Right())
    requires parent == 0 <==> n.IsRoot()
    modifies s`mem, s`links
    ensures Stored(s.mem, s.own, s.links, s.heapStart, s.heapStart + s.heapSize) && KeptOutside(old(s.mem), s.mem, s.own)
    ensures s.links == Attach(k0, chunk, n, parent)
  {
    hide Stored, Fresh;
    s.SetLink(chunk, Parent, parent);
    if parent != 0 {
      if isRight {
        s.SetLink(parent, Right, chunk);
      } else {
        s.SetLink(parent, Left, chunk);
      }
    }
  }

  /** The descent meets a node of the chunk's size: the chunk joins its ring. */
  lemma InsertMeets(own: map<int, nat>, k: Links, ring: Rings, t: Shape, tbin: seq<int>, size: nat, top: int,
                    d: int, parent: int, cur: int, chunk: int)
    requires InsertState(own, k, ring, t, size, top, d, parent, cur) && cur != 0 && cur in own && own[cur] == size
    requires TreeHeads(ring, t, tbin) && chunk !in own && chunk > 0
    ensures size in ring && |ring[size]| > 0 && size >= MIN_LARGE
    ensures Get(k, cur, Prev) in own
    ensures AppendLinks(k, chunk, ring[size]) ==
              LinkBetween(Put(Fresh(k, chunk), chunk, Parent, 0), chunk, Get(k, cur, Prev), cur)
    ensures var ring' := ring[size := ring[size] + [chunk]];
            && ListsOK(own[chunk := size], AppendLinks(k, chunk, ring[size]), ring', t)
            && TreeHeads(ring', t, tbin) && SameSmall(ring, ring')
  {
    InsertNode(own, k, ring, t, size, top, d, parent, cur);
    RingEnds(own, k, ring, t, PathNode(size, d));
    AppendLarge(own, k, ring, t, chunk, size);
    hide ListsOK, AppendLinks;
  }

  /** A tree node's head is its ring's first chunk; its prev link leads to the last one. */
  lemma RingEnds(own: map<int, nat>, k: Links, ring: Rings, t: Shape, n: Node)
    requires ListsOK(own, k, ring, t) && n in t
    ensures t[n] in ring && |ring[t[n]]| > 0 && HeadOf(ring, t, n) == ring[t[n]][0]
    ensures Get(k, ring[t[n]][0], Prev) == ring[t[n]][|ring[t[n]]| - 1]
    ensures forall x :: x in ring[t[n]] ==> x in own
  {
    var xs := ring[t[n]];
    assert RingAt(k, xs);
    assert LinkedAt(k, xs, 0);
    forall x | x in xs
      ensures x in own
    {
      var j :| 0 <= j < |xs| && xs[j] == x;
    }
  }

  lemma SizesInTrie(own: map<int, nat>, k: Links, ring: Rings, t: Shape, size: nat)
    requires ListsOK(own, k, ring, t) && size >= MIN_LARGE
    ensures size in ring <==> size in t.Values
  {
    if size in t.Values {
      var n :| n in t && t[n] == size;
    }
  }

  lemma HeadsAfterAttach(own: map<int, nat>, k: Links, ring: Rings, t: Shape, tbin: seq<int>, x: int, size: nat, n: Node, index: nat)
    requires ListsOK(own, k, ring, t) && TreeHeads(ring, t, tbin) && size >= MIN_LARGE
    requires size !in ring && n !in t && index < NBINS
    requires n.IsRoot() ==> n == Root(index)
    ensures SameSmall(ring, ring[size := [x]])
    ensures TreeHeads(ring[size := [x]], t[n := size], if n.IsRoot() then tbin[index := x] else tbin)
  {
    forall i | 0 <= i < NBINS
      ensures HeadOf(ring[size := [x]], t[n := size], Root(i)) == (if n.IsRoot() then tbin[index := x] else tbin)[i]
    {
      AttachHeads(ring, t, x, size, n, Root(i));
      if Root(i) == n {
        RootsDiffer(i, index);
      }
    }
  }

  /** The loop of kmalloc_tree_insert: down the path until the size or a vacant place is met. */
  method FindPlace(s: KmState, size: nat, index: nat, depth: nat, chunk: int, ghost own0: map<int, nat>, ghost k0: Links)
    returns (cur: int, parent: int, isRight: bool, ghost d: int)
    requires Stored(s.mem, s.own, s.links, s.heapStart, s.heapStart + s.heapSize) && s.links == Fresh(k0, chunk) && s.own == own0[chunk := size] && chunk !in own0
    requires ListsOK(own0, k0, s.ring, s.shape) && TreeHeads(s.ring, s.shape, s.tbin)
    requires Large(size) && index == CalcTbin(size) && index < NBINS && depth == TbinDepth(index)
    requires s.tbin[index] != 0
    ensures InsertState(own0, k0, s.ring, s.shape, size, depth, d, parent, cur)
    ensures cur != 0 ==> cur in own0 && own0[cur] == size
    ensures d < depth ==> isRight == Bit(size, d)
    ensures cur == 0 ==> d < depth
  {
    hide Stored, ListsOK, InsertState, HeadOf, Large, PathNode;
    InsertStart(own0, k0, s.ring, s.shape, s.tbin, size, index);
    FreshGet(k0, chunk);
    hide TreeHeads, Fresh;
    var i: int := depth;
    d := depth;
    cur, parent, isRight := s.tbin[index], 0, false;
    while cur != 0
      invariant d == i && InsertState(own0, k0, s.ring, s.shape, size, depth, d, parent, cur)
      invariant d < depth ==> isRight == Bit(size, d)
      invariant cur == 0 ==> d < depth
      invariant d <= depth
      decreases d
    {
      InsertNode(own0, k0, s.ring, s.shape, size, depth, d, parent, cur);
      var curSize := s.GetSize(cur);
      if size == curSize {
        return;
      }
      InsertStep(own0, k0, s.ring, s.shape, size, depth, d, parent, cur);
      parent := cur;
      isRight := Bit(size, i - 1);
      if isRight {
        cur := s.GetLink(cur, Right);
      } else {
        cur := s.GetLink(cur, Left);
      }
      i := i - 1;
      d := i;
      if i < 0 {
        assert false;
      }
    }
  }

  lemma FreshGet(k: Links, x: int)
    ensures forall y, f :: y != x ==> Get(Fresh(k, x), y, f) == Get(k, y, f)
  {
  }

  /** The chunk joins the ring of cur. */
  method JoinRing(s: KmState, chunk: int, size: nat, cur: int, ghost own0: map<int, nat>, ghost k0: Links,
                  ghost top: int, ghost d: int, ghost parent: int)
    requires Stored(s.mem, s.own, s.links, s.heapStart, s.heapStart + s.heapSize) && s.links == Fresh(k0, chunk) && s.own == own0[chunk := size] && chunk !in own0 && chunk > 0
    requires InsertState(own0, k0, s.ring, s.shape, size, top, d, parent, cur) && TreeHeads(s.ring, s.shape, s.tbin)
    requires cur != 0 && cur in own0 && own0[cur] == size
    modifies s`mem, s`links, s`ring
    ensures Stored(s.mem, s.own, s.links, s.heapStart, s.heapStart + s.heapSize) && KeptOutside(old(s.mem), s.mem, s.own)
    ensures ListsOK(s.own, s.links, s.ring, s.shape) && TreeHeads(s.ring, s.shape, s.tbin)
    ensures SameSmall(old(s.ring), s.ring) && TreeGains(old(s.ring), s.shape, chunk, size, s.ring, s.shape)
  {
    hide Stored, ListsOK, InsertState, Fresh, AppendLinks, TreeHeads, SameSmall;
    ghost var ring0, t := s.ring, s.shape;
    InsertMeets(own0, k0, ring0, t, s.tbin, size, top, d, parent, cur, chunk);
    FreshGet(k0, chunk);
    s.SetLink(chunk, Parent, 0);
    DlList.AddEnd(s, chunk, cur);
    s.ring := ring0[size := ring0[size] + [chunk]];
  }

  /** The chunk becomes the vacant node at depth d of its path. */
  method TakeNode(s: KmState, chunk: int, size: nat, parent: int, isRight: bool, index: nat,
                  ghost own0: map<int, nat>, ghost k0: Links, ghost d: int)
    requires Stored(s.mem, s.own, s.links, s.heapStart, s.heapStart + s.heapSize) && s.links == Fresh(k0, chunk) && s.own == own0[chunk := size] && chunk !in own0 && chunk > 0
    requires index == CalcTbin(size) && index < NBINS
    requires InsertState(own0, k0, s.ring, s.shape, size, TbinDepth(index), d, parent, 0)
    requires TreeHeads(s.ring, s.shape, s.tbin)
    requires d < TbinDepth(index) ==> isRight == Bit(size, d)
    modifies s`mem, s`links, s`ring, s`shape, s`tbin
    ensures Stored(s.mem, s.own, s.links, s.heapStart, s.heapStart + s.heapSize) && KeptOutside(old(s.mem), s.mem, s.own)
    ensures ListsOK(s.own, s.links, s.ring, s.shape) && TreeHeads(s.ring, s.shape, s.tbin)
    ensures SameSmall(old(s.ring), s.ring) && TreeGains(old(s.ring), old(s.shape), chunk, size, s.ring, s.shape)
    ensures s.tbin == if parent == 0 then old(s.tbin)[index := chunk] else old(s.tbin)
  {
    hide *;
    ghost var ring0, t, n := s.ring, s.shape, PathNode(size, d);
    TakesNode(own0, k0, ring0, t, s.tbin, size, index, d, parent, chunk);
    NodeGained(ring0, t, chunk, size, n);
    if parent == 0 {
      s.tbin := s.tbin[index := chunk];
    }
    Hang(s, chunk, parent, isRight, n, k0);
    s.ring := ring0[size := [chunk]];
    s.shape := t[n := size];
  }

  lemma TakesNode(own: map<int, nat>, k: Links, ring: Rings, t: Shape, tbin: seq<int>, size: nat, index: nat,
                  d: int, parent: int, chunk: int)
    requires InsertState(own, k, ring, t, size, TbinDepth(index), d, parent, 0)
    requires TreeHeads(ring, t, tbin) && index == CalcTbin(size) && index < NBINS && chunk !in own && chunk > 0
    ensures var n := PathNode(size, d);
            && (parent == 0 <==> n.IsRoot()) && (parent == 0 <==> d == TbinDepth(index)) && size >= MIN_LARGE
            && (!n.IsRoot() ==> parent in own && own[parent] >= MIN_LARGE && (n == n.Parent().Right() <==> Bit(size, d)))
            && ListsOK(own[chunk := size], Attach(k, chunk, n, parent), ring[size := [chunk]], t[n := size])
            && TreeHeads(ring[size := [chunk]], t[n := size], if parent == 0 then tbin[index := chunk] else tbin)
            && SameSmall(ring, ring[size := [chunk]]) && size !in ring && n !in t
    ensures TbinDepth(index) >= d && |tbin| == NBINS
  {
    InsertNode(own, k, ring, t, size, TbinDepth(index), d, parent, 0);
    InsertEnds(own, k, ring, t, size, TbinDepth(index), d, parent, chunk);
    InsertRoot(own, k, ring, t, tbin, size, index, d, parent, 0);
    hide HeadOf, Attach, Fresh, SameSmall, TreeHeads;
    HeadsAfterAttach(own, k, ring, t, tbin, chunk, size, PathNode(size, d), index);
    hide ListsOK;
  }

  lemma NodeGained(ring: Rings, t: Shape, x: int, size: nat, n: Node)
    requires size !in ring && n !in t
    ensures TreeGains(ring, t, x, size, ring[size := [x]], t[n := size])
  {
  }

  lemma InsertRoot(own: map<int, nat>, k: Links, ring: Rings, t: Shape, tbin: seq<int>, size: nat, index: nat,
                   d: int, parent: int, cur: int)
    requires InsertState(own, k, ring, t, size, TbinDepth(index), d, parent, cur)
    requires index == CalcTbin(size) && index < NBINS
    ensures d == TbinDepth(index) ==> PathNode(size, d) == Root(index)
  {
    TbinPrefix(size);
  }

  /**
   kmalloc_tree_insert.  The chunk, not on any list yet, joins the ring of its size or becomes the node
   its search path ends at; nothing else changes.
   */
  method Insert(s: KmState, chunk: int, index: nat, depth: nat)
    requires Stored(s.mem, s.own, s.links, s.heapStart, s.heapStart + s.heapSize) && chunk in s.own && Large(s.own[chunk])
    requires ListsOK(s.own - {chunk}, s.links, s.ring, s.shape) && TreeHeads(s.ring, s.shape, s.tbin)
    requires index == CalcTbin(s.own[chunk]) && index < NBINS && depth == TbinDepth(index)
    modifies s`mem, s`links, s`tbin, s`ring, s`shape
    ensures Stored(s.mem, s.own, s.links, s.heapStart, s.heapStart + s.heapSize) && KeptOutside(old(s.mem), s.mem, s.own)
    ensures ListsOK(s.own, s.links, s.ring, s.shape) && TreeHeads(s.ring, s.shape, s.tbin)
    ensures SameSmall(old(s.ring), s.ring) && TreeGains(old(s.ring), old(s.shape), chunk, s.own[chunk], s.ring, s.shape)
    ensures |s.tbin| == NBINS && s.tbin[index] != 0
    ensures forall i :: 0 <= i < NBINS && i != index ==> s.tbin[i] == old(s.tbin)[i]
  {
    hide *;
    ghost var own0, k0 := s.own - {chunk}, s.links;
    StoredAddress(s.mem, s.own, s.links, s.heapStart, s.heapStart + s.heapSize, chunk);
    InsertStart(own0, k0, s.ring, s.shape, s.tbin, s.own[chunk], index);
    MakeFresh(s, chunk);
    ghost var mem1 := s.mem;
    var size := s.GetSize(chunk);
    assert s.own == own0[chunk := size];
    if s.tbin[index] == 0 {
      TakeNode(s, chunk, size, 0, false, index, own0, k0, depth);
    } else {
      var cur, parent, isRight;
      ghost var d;
      cur, parent, isRight, d := FindPlace(s, size, index, depth, chunk, own0, k0);
      InsertNode(own0, k0, s.ring, s.shape, size, depth, d, parent, cur);
      if cur != 0 {
        JoinRing(s, chunk, size, cur, own0, k0, depth, d, parent);
      } else {
        TakeNode(s, chunk, size, parent, isRight, index, own0, k0, d);
      }
    }
    KeptTrans(old(s.mem), mem1, s.mem, s.own);
  }

  // ----- remove

  /** A tree link that is not NULL leads to a large chunk on the lists. */
  ghost predicate LinkOK(own: map<int, nat>, y: int) {
    y != 0 ==> y in own && own[y] >= MIN_LARGE
  }

  /** A chunk's tree links. */
  ghost predicate BranchesOK(own: map<int, nat>, k: Links, x: int) {
    && x in own && own[x] >= MIN_LARGE
    && LinkOK(own, Get(k, x, Left)) && LinkOK(own, Get(k, x, Right)) && LinkOK(own, Get(k, x, Parent))
    && Get(k, x, Left) != x && Get(k, x, Right) != x && Get(k, x, Parent) != x
  }

  ghost predicate NeighboursOK(own: map<int, nat>, k: Links, x: int) {
    && BranchesOK(own, k, x)
    && Get(k, x, Next) in own && own[Get(k, x, Next)] >= MIN_LARGE
    && Get(k, x, Prev) in own && own[Get(k, x, Prev)] >= MIN_LARGE
  }

  /** What the code can tell from a chunk's links: whether it is alone in its ring, its head, or the root. */
  lemma WhereIs(own: map<int, nat>, k: Links, ring: Rings, t: Shape, tbin: seq<int>, index: nat, x: int)
    returns (n: Node, i: int)
    requires ListsOK(own, k, ring, t) && TreeHeads(ring, t, tbin) && x in own && own[x] >= MIN_LARGE && own[x] < SIZE_LIMIT
    requires index == CalcTbin(own[x])
    ensures index < NBINS && |tbin| == NBINS && NeighboursOK(own, k, x) && x > 0
    ensures n in t && t[n] == own[x] && own[x] in ring && 0 <= i < |ring[own[x]]| && ring[own[x]][i] == x
    ensures Get(k, x, Next) == After(ring[own[x]], i) && Get(k, x, Prev) == Before(ring[own[x]], i)
    ensures Get(k, x, Next) == x <==> |ring[own[x]]| == 1
    ensures Get(k, x, Prev) == x <==> |ring[own[x]]| == 1
    ensures i == 0 ==> HeadOf(ring, t, n) == x
    ensures i == 0 ==> (Get(k, x, Parent) == 0 <==> n.IsRoot())
    ensures i > 0 ==> Get(k, x, Left) == 0 && Get(k, x, Right) == 0 && Get(k, x, Parent) == 0
    ensures n.IsRoot() ==> n == Root(index)
    ensures tbin[index] == x <==> i == 0 && n.IsRoot()
    ensures i == 0 ==> (IsLeaf(t, n) <==> Get(k, x, Left) == 0 && Get(k, x, Right) == 0)
  {
    hide *;
    n, i := FindChunk(own, k, ring, t, x);
    ChunkRing(own, k, ring, t, x, i);
    RootOfBin(own, k, ring, t, tbin, n, own[x], index);
    NodeLinks(own, k, ring, t, n);
    if i == 0 {
      HeadNeighbours(own, k, ring, t, n);
    } else {
      FollowerLinks(own, k, ring, t, own[x], i);
      FollowerNoHead(own, k, ring, t, Root(index), own[x], i);
    }
    Neighbours(own, k, x);
  }

  lemma Neighbours(own: map<int, nat>, k: Links, x: int)
    requires x in own && own[x] >= MIN_LARGE
    requires LinkOK(own, Get(k, x, Left)) && LinkOK(own, Get(k, x, Right)) && LinkOK(own, Get(k, x, Parent))
    requires Get(k, x, Left) != x && Get(k, x, Right) != x && Get(k, x, Parent) != x
    requires Get(k, x, Next) in own && own[Get(k, x, Next)] == own[x]
    requires Get(k, x, Prev) in own && own[Get(k, x, Prev)] == own[x]
    ensures NeighboursOK(own, k, x)
  {
  }

  lemma ChunkRing(own: map<int, nat>, k: Links, ring: Rings, t: Shape, x: int, i: int)
    requires ListsOK(own, k, ring, t)
    requires x in own && own[x] in ring && 0 <= i < |ring[own[x]]| && ring[own[x]][i] == x
    ensures x > 0
    ensures Get(k, x, Next) == After(ring[own[x]], i) && Get(k, x, Prev) == Before(ring[own[x]], i)
    ensures Get(k, x, Next) == x <==> |ring[own[x]]| == 1
    ensures Get(k, x, Prev) == x <==> |ring[own[x]]| == 1
    ensures Get(k, x, Next) in own && own[Get(k, x, Next)] == own[x]
    ensures Get(k, x, Prev) in own && own[Get(k, x, Prev)] == own[x]
  {
    RingFacts(own, k, ring, x, i);
  }

  lemma FollowerLinks(own: map<int, nat>, k: Links, ring: Rings, t: Shape, s: nat, i: int)
    requires ListsOK(own, k, ring, t) && s in ring && 0 < i < |ring[s]| && s >= MIN_LARGE
    ensures Get(k, ring[s][i], Left) == 0 && Get(k, ring[s][i], Right) == 0 && Get(k, ring[s][i], Parent) == 0
    ensures LinkOK(own, 0) && ring[s][i] > 0
  {
    assert Unlinked(k, ring[s][i]);
    assert ring[s][i] in own;
  }

  lemma FollowerNoHead(own: map<int, nat>, k: Links, ring: Rings, t: Shape, n: Node, s: nat, i: int)
    requires ListsOK(own, k, ring, t) && s in ring && 0 < i < |ring[s]|
    ensures HeadOf(ring, t, n) != ring[s][i]
  {
    HeadFacts(own, k, ring, t);
    assert ring[s][i] in own;
  }

  /** A root node that holds a size is the root of the size's bin. */
  lemma RootOfBin(own: map<int, nat>, k: Links, ring: Rings, t: Shape, tbin: seq<int>, n: Node, size: nat, index: nat)
    requires ListsOK(own, k, ring, t) && TreeHeads(ring, t, tbin)
    requires n in t && t[n] == size && index == CalcTbin(size)
    ensures index < NBINS && |tbin| == NBINS && tbin[index] == HeadOf(ring, t, Root(index))
    ensures n.IsRoot() <==> n == Root(index)
  {
    Occupied(t, n);
    TbinPrefix(size);
    StoredOnPath(t, size, TbinDepth(index), n);
    PathRoot(size, TbinDepth(index), n.depth);
    hide ListsOK;
  }

  lemma HeadNeighbours(own: map<int, nat>, k: Links, ring: Rings, t: Shape, n: Node)
    requires ListsOK(own, k, ring, t) && n in t
    ensures var x := HeadOf(ring, t, n);
            && LinkOK(own, Get(k, x, Left)) && LinkOK(own, Get(k, x, Right)) && LinkOK(own, Get(k, x, Parent))
            && Get(k, x, Left) != x && Get(k, x, Right) != x && Get(k, x, Parent) != x
            && (Get(k, x, Parent) == 0 <==> n.IsRoot())
            && (IsLeaf(t, n) <==> Get(k, x, Left) == 0 && Get(k, x, Right) == 0)
    ensures forall m :: HeadOf(ring, t, m) == HeadOf(ring, t, n) ==> m == n
  {
    hide ListsOK, HeadOf;
    NodeLinks(own, k, ring, t, n);
    NodeOrNull(own, k, ring, t, n.Left());
    NodeOrNull(own, k, ring, t, n.Right());
    NodeOrNull(own, k, ring, t, n.Parent());
    ParentIn(own, k, ring, t, n);
    forall m | HeadOf(ring, t, m) == HeadOf(ring, t, n)
      ensures m == n
    {
      SameHeadSameNode(own, k, ring, t, n, m);
    }
  }

  lemma ParentIn(own: map<int, nat>, k: Links, ring: Rings, t: Shape, n: Node)
    requires ListsOK(own, k, ring, t) && n in t
    ensures n.IsRoot() || n.Parent() in t
  {
  }

  lemma NodeOrNull(own: map<int, nat>, k: Links, ring: Rings, t: Shape, n: Node)
    requires ListsOK(own, k, ring, t)
    ensures LinkOK(own, HeadOf(ring, t, n)) && (n in t <==> HeadOf(ring, t, n) != 0)
  {
    hide ListsOK;
    if n in t {
      NodeLinks(own, k, ring, t, n);
    }
  }

  lemma FindChunk(own: map<int, nat>, k: Links, ring: Rings, t: Shape, x: int) returns (n: Node, i: int)
    requires ListsOK(own, k, ring, t) && x in own && own[x] >= MIN_LARGE
    ensures n in t && t[n] == own[x] && own[x] in ring && 0 <= i < |ring[own[x]]| && ring[own[x]][i] == x
    ensures i == 0 ==> HeadOf(ring, t, n) == x
  {
    i :| 0 <= i < |ring[own[x]]| && ring[own[x]][i] == x;
    assert own[x] in t.Values;
    n :| n in t && t[n] == own[x];
  }

  lemma RingFacts(own: map<int, nat>, k: Links, ring: Rings, x: int, i: int)
    requires Members(own, ring) && RingsAt(k, ring)
    requires x in own && own[x] in ring && 0 <= i < |ring[own[x]]| && ring[own[x]][i] == x
    ensures Get(k, x, Next) == After(ring[own[x]], i) && Get(k, x, Prev) == Before(ring[own[x]], i)
    ensures Get(k, x, Next) == x <==> |ring[own[x]]| == 1
    ensures Get(k, x, Prev) == x <==> |ring[own[x]]| == 1
    ensures Get(k, x, Next) in own && own[Get(k, x, Next)] == own[x]
    ensures Get(k, x, Prev) in own && own[Get(k, x, Prev)] == own[x]
  {
    var xs := ring[own[x]];
    assert RingAt(k, xs);
    assert LinkedAt(k, xs, i);
  }

  /** The child, if there is one, gets r as its parent. */
  method AdoptLink(s: KmState, child: int, r: int)
    requires Stored(s.mem, s.own, s.links, s.heapStart, s.heapStart + s.heapSize) && LinkOK(s.own, child)
    modifies s`mem, s`links
    ensures Stored(s.mem, s.own, s.links, s.heapStart, s.heapStart + s.heapSize) && KeptOutside(old(s.mem), s.mem, s.own)
    ensures s.links == Adopt(old(s.links), child, r)
  {
    hide Stored;
    if child != 0 {
      s.SetLink(child, Parent, r);
    }
  }

  /** r gets the tree links of x. */
  method CopyTreeLinks(s: KmState, x: int, r: int)
    requires Stored(s.mem, s.own, s.links, s.heapStart, s.heapStart + s.heapSize)
    requires x in s.own && s.own[x] >= MIN_LARGE && r in s.own && s.own[r] >= MIN_LARGE && r != x
    modifies s`mem, s`links
    ensures Stored(s.mem, s.own, s.links, s.heapStart, s.heapStart + s.heapSize) && KeptOutside(old(s.mem), s.mem, s.own)
    ensures var k := old(s.links);
            s.links == Put(Put(Put(k, r, Parent, Get(k, x, Parent)), r, Left, Get(k, x, Left)), r, Right, Get(k, x, Right))
  {
    hide Stored;
    var parent := s.GetLink(x, Parent);
    s.SetLink(r, Parent, parent);
    var left := s.GetLink(x, Left);
    s.SetLink(r, Left, left);
    var right := s.GetLink(x, Right);
    s.SetLink(r, Right, right);
  }

  /** r gets the place of x in its ring. */
  method CopyRingLinks(s: KmState, x: int, r: int)
    requires Stored(s.mem, s.own, s.links, s.heapStart, s.heapStart + s.heapSize)
    requires x in s.own && r in s.own && r != x && Get(s.links, x, Prev) in s.own
    modifies s`mem, s`links
    ensures Stored(s.mem, s.own, s.links, s.heapStart, s.heapStart + s.heapSize) && KeptOutside(old(s.mem), s.mem, s.own)
    ensures var k := Put(old(s.links), r, Prev, Get(old(s.links), x, Prev));
            s.links == Put(k, Get(k, x, Prev), Next, r)
  {
    hide Stored;
    var prev := s.GetLink(x, Prev);
    s.SetLink(r, Prev, prev);
    prev := s.GetLink(x, Prev);
    s.SetLink(prev, Next, r);
  }

  /** ktchunk_replace_head */
  method ReplaceHeadLinks(s: KmState, x: int, r: int)
    requires Stored(s.mem, s.own, s.links, s.heapStart, s.heapStart + s.heapSize) && NeighboursOK(s.own, s.links, x)
    requires r in s.own && s.own[r] >= MIN_LARGE && r != x
    modifies s`mem, s`links
    ensures Stored(s.mem, s.own, s.links, s.heapStart, s.heapStart + s.heapSize) && KeptOutside(old(s.mem), s.mem, s.own)
    ensures s.links == ReplaceHead(old(s.links), x, r)
    ensures Get(s.links, x, Parent) == Get(old(s.links), x, Parent)
  {
    hide Stored, KeptOutside;
    CopyTreeLinks(s, x, r);
    ghost var m1 := s.mem;
    CopyRingLinks(s, x, r);
    KeptTrans(old(s.mem), m1, s.mem, s.own);
    m1 := s.mem;
    var left := s.GetLink(r, Left);
    AdoptLink(s, left, r);
    KeptTrans(old(s.mem), m1, s.mem, s.own);
    m1 := s.mem;
    var right := s.GetLink(r, Right);
    AdoptLink(s, right, r);
    KeptTrans(old(s.mem), m1, s.mem, s.own);
  }

  /** ktchunk_update_parent */
  method UpdateParentLink(s: KmState, x: int, c: int)
    requires Stored(s.mem, s.own, s.links, s.heapStart, s.heapStart + s.heapSize) && x in s.own && s.own[x] >= MIN_LARGE
    requires Get(s.links, x, Parent) in s.own && s.own[Get(s.links, x, Parent)] >= MIN_LARGE
    modifies s`mem, s`links
    ensures Stored(s.mem, s.own, s.links, s.heapStart, s.heapStart + s.heapSize) && KeptOutside(old(s.mem), s.mem, s.own)
    ensures s.links == UpdateParent(old(s.links), x, c)
  {
    hide Stored;
    var parent := s.GetLink(x, Parent);
    var left := s.GetLink(parent, Left);
    if left == x {
      s.SetLink(parent, Left, c);
    } else {
      s.SetLink(parent, Right, c);
    }
  }

  /** r takes over both subtrees of x. */
  method TakeOverLinks(s: KmState, x: int, r: int)
    requires Stored(s.mem, s.own, s.links, s.heapStart, s.heapStart + s.heapSize)
    requires x in s.own && s.own[x] >= MIN_LARGE && r in s.own && s.own[r] >= MIN_LARGE && r != x
    requires LinkOK(s.own, Get(s.links, x, Left)) && LinkOK(s.own, Get(s.links, x, Right))
    modifies s`mem, s`links
    ensures Stored(s.mem, s.own, s.links, s.heapStart, s.heapStart + s.heapSize) && KeptOutside(old(s.mem), s.mem, s.own)
    ensures s.links == TakeOver(old(s.links), x, r)
  {
    hide Stored, KeptOutside;
    ghost var m1 := s.mem;
    var left := s.GetLink(x, Left);
    s.SetLink(r, Left, left);
    m1 := s.mem;
    left := s.GetLink(r, Left);
    AdoptLink(s, left, r);
    KeptTrans(old(s.mem), m1, s.mem, s.own);
    m1 := s.mem;
    var right := s.GetLink(x, Right);
    s.SetLink(r, Right, right);
    KeptTrans(old(s.mem), m1, s.mem, s.own);
    m1 := s.mem;
    right := s.GetLink(r, Right);
    AdoptLink(s, right, r);
    KeptTrans(old(s.mem), m1, s.mem, s.own);
  }

  /** The same links, other than perhaps the previous chunk of x in its ring. */
  ghost predicate SameBut(k: Links, k': Links, x: int) {
    forall y, f :: y != x || f != Prev ==> Get(k', y, f) == Get(k, y, f)
  }

  lemma PutBut(k: Links, k': Links, y: int, f: Field, v: int, x: int)
    requires SameBut(k, k', x)
    ensures SameBut(Put(k, y, f, v), Put(k', y, f, v), x)
  {
    forall z, g | z != x || g != Prev
      ensures Get(Put(k', y, f, v), z, g) == Get(Put(k, y, f, v), z, g)
    {
      assert Get(k', z, g) == Get(k, z, g);
    }
  }

  lemma UpdateParentBut(k: Links, k': Links, y: int, c: int, x: int)
    requires SameBut(k, k', x)
    ensures SameBut(UpdateParent(k, y, c), UpdateParent(k', y, c), x)
  {
    hide Put, Get;
    var p := Get(k, y, Parent);
    assert Get(k', y, Parent) == p && Get(k', p, Left) == Get(k, p, Left);
    PutBut(k, k', p, Left, c, x);
    PutBut(k, k', p, Right, c, x);
  }

  lemma AdoptBut(k: Links, k': Links, child: int, r: int, x: int)
    requires SameBut(k, k', x)
    ensures SameBut(Adopt(k, child, r), Adopt(k', child, r), x)
  {
    PutBut(k, k', child, Parent, r, x);
    hide SameBut, Put;
  }

  lemma TakeOverBut(k: Links, k': Links, y: int, r: int, x: int)
    requires SameBut(k, k', x)
    ensures SameBut(TakeOver(k, y, r), TakeOver(k', y, r), x)
  {
    hide Put, Get, Adopt, SameBut;
    LinkBut(k, k', x, y);
    PutBut(k, k', r, Left, Get(k, y, Left), x);
    var k1, k1' := Put(k, r, Left, Get(k, y, Left)), Put(k', r, Left, Get(k, y, Left));
    LinkBut(k1, k1', x, r);
    AdoptBut(k1, k1', Get(k1, r, Left), r, x);
    var k2, k2' := Adopt(k1, Get(k1, r, Left), r), Adopt(k1', Get(k1, r, Left), r);
    LinkBut(k2, k2', x, y);
    PutBut(k2, k2', r, Right, Get(k2, y, Right), x);
    var k3, k3' := Put(k2, r, Right, Get(k2, y, Right)), Put(k2', r, Right, Get(k2, y, Right));
    LinkBut(k3, k3', x, r);
    AdoptBut(k3, k3', Get(k3, r, Right), r, x);
  }

  lemma LinkBut(k: Links, k': Links, x: int, y: int)
    requires SameBut(k, k', x)
    ensures Get(k', y, Parent) == Get(k, y, Parent) && Get(k', y, Left) == Get(k, y, Left) && Get(k', y, Right) == Get(k, y, Right)
    ensures Get(k', x, Parent) == Get(k, x, Parent) && Get(k', x, Next) == Get(k, x, Next)
  {
  }

  /** Taking out a chunk that is alone in its ring makes no use of that link. */
  lemma InnerOutBut(k: Links, k': Links, x: int, r: int)
    requires SameBut(k, k', x)
    ensures SameBut(InnerOut(k, x, r), InnerOut(k', x, r), x) && SameBut(LeafOut(k, x), LeafOut(k', x), x)
    ensures Get(InnerOut(k', x, r), x, Prev) == Get(k', x, Prev) == Get(LeafOut(k', x), x, Prev)
  {
    hide Put, Get, UpdateParent, TakeOver, SameBut;
    LinkBut(k, k', x, x);
    UpdateParentBut(k, k', x, 0, x);
    UpdateParentBut(k, k', r, 0, x);
    var k1, k1' := UpdateParent(k, r, 0), UpdateParent(k', r, 0);
    TakeOverBut(k1, k1', x, r, x);
    var k2, k2' := TakeOver(k1, x, r), TakeOver(k1', x, r);
    LinkBut(k2, k2', x, x);
    PutBut(k2, k2', r, Parent, Get(k2, x, Parent), x);
    var k3, k3' := Put(k2, r, Parent, Get(k2, x, Parent)), Put(k2', r, Parent, Get(k2, x, Parent));
    LinkBut(k3, k3', x, r);
    UpdateParentBut(k3, k3', x, r, x);
    InnerOutTouches(k', x, r);
    LeafOutPrev(k', x);
  }

  lemma LeafOutPrev(k: Links, x: int)
    ensures Get(LeafOut(k, x), x, Prev) == Get(k, x, Prev)
  {
  }

  lemma BranchesBut(own: map<int, nat>, k: Links, k': Links, x: int)
    requires BranchesOK(own, k, x) && SameBut(k, k', x)
    ensures BranchesOK(own, k', x)
  {
  }

  /** The lists do not depend on links of chunks outside them. */
  lemma ListsIgnore(own: map<int, nat>, k: Links, ring: Rings, t: Shape, k': Links, x: int)
    requires ListsOK(own, k, ring, t) && x !in own
    requires forall y, f :: y != x ==> Get(k', y, f) == Get(k, y, f)
    ensures ListsOK(own, k', ring, t)
  {
    TreeLinksOnly(own, k, ring, k', x);
    HeadFacts(own, k, ring, t);
    assert TreeAt(k', ring, t) by {
      forall n | n in t
        ensures HeadOf(ring, t, n) != x
      {
        assert t[n] in ring && ring[t[n]][0] in own;
      }
      TreeKept(k, ring, t, k', ring);
    }
    forall r, j | r in ring && r >= MIN_LARGE && 0 < j < |ring[r]|
      ensures Unlinked(k', ring[r][j])
    {
      assert Unlinked(k, ring[r][j]) && ring[r][j] in own;
    }
  }

  lemma ListsBut(own: map<int, nat>, k: Links, k': Links, ring: Rings, t: Shape, x: int)
    requires ListsOK(own, k, ring, t) && x !in own && SameBut(k, k', x)
    ensures ListsOK(own, k', ring, t)
  {
    hide ListsOK;
    ListsIgnore(own, k, ring, t, k', x);
  }

  /** The first left-most leaf below an inner node. */
  method FindLeaf(s: KmState, chunk: int, ghost n: Node, ghost k0: Links) returns (r: int, ghost leaf: Node)
    requires Stored(s.mem, s.own, s.links, s.heapStart, s.heapStart + s.heapSize)
    requires ListsOK(s.own, k0, s.ring, s.shape) && SameBut(k0, s.links, chunk)
    requires n in s.shape && !IsLeaf(s.shape, n) && chunk == HeadOf(s.ring, s.shape, n)
    ensures LeafFor(s.shape, n, leaf)
    ensures r == HeadOf(s.ring, s.shape, leaf) && r in s.own && s.own[r] >= MIN_LARGE && r != 0
  {
    hide ListsOK, Stored, HeadOf, Below, LeftFirst;
    ghost var t := s.shape;
    r, leaf := chunk, n;
    SelfBelow(n);
    LeftFirstStarts(t, n);
    NodeLinks(s.own, k0, s.ring, t, n);
    var left := s.GetLink(r, Left);
    var right := s.GetLink(r, Right);
    while left != 0 || right != 0
      invariant leaf in t && Below(n, leaf) && r == HeadOf(s.ring, t, leaf) && r in s.own && s.own[r] >= MIN_LARGE && r != 0
      invariant left == HeadOf(s.ring, t, leaf.Left()) && (left != 0 <==> leaf.Left() in t)
      invariant right == HeadOf(s.ring, t, leaf.Right()) && (right != 0 <==> leaf.Right() in t)
      invariant leaf.depth >= 3 && (leaf == n ==> left != 0 || right != 0) && LeftFirst(t, n, leaf)
      decreases leaf.depth
    {
      BelowChild(n, leaf);
      LeftFirstStep(t, n, leaf);
      ChildIsDeeper(n, leaf);
      leaf := if left != 0 then leaf.Left() else leaf.Right();
      r := if left != 0 then left else right;
      NodeLinks(s.own, k0, s.ring, t, leaf);
      left := s.GetLink(r, Left);
      right := s.GetLink(r, Right);
    }
  }

  lemma ChildIsDeeper(n: Node, m: Node)
    requires Below(n, m)
    ensures m.Left() != n && m.Right() != n
  {
  }

  // What each way of removing leaves behind.

  lemma RemovedHead(own: map<int, nat>, k: Links, ring: Rings, t: Shape, tbin: seq<int>, index: nat, x: int, n: Node)
    requires ListsOK(own, k, ring, t) && TreeHeads(ring, t, tbin) && x in own && own[x] >= MIN_LARGE && index < NBINS
    requires n in t && t[n] == own[x] && own[x] in ring && |ring[own[x]]| > 1 && ring[own[x]][0] == x
    requires n.IsRoot() ==> n == Root(index)
    ensures var r := Get(k, x, Next);
            var ring' := ring[own[x] := DropAt(ring[own[x]], 0)];
            && r in own && own[r] >= MIN_LARGE && r != x
            && ListsOK(own - {x}, HeadOut(k, x, r, n.IsRoot()), ring', t)
            && TreeHeads(ring', t, if n.IsRoot() then tbin[index := r] else tbin) && SameSmall(ring, ring')
  {
    var xs := ring[own[x]];
    ChunkRing(own, k, ring, t, x, 0);
    DropHead(own, k, ring, t, x, n);
    ListsShape(own, k, ring, t);
    hide ListsOK, HeadOf, ShapeOK;
    forall i | 0 <= i < NBINS
      ensures HeadOf(ring[own[x] := DropAt(xs, 0)], t, Root(i)) == (if n.IsRoot() then tbin[index := xs[1]] else tbin)[i]
    {
      SameHeads(ring, t, own[x], DropAt(xs, 0), n, Root(i));
      if Root(i) == n {
        RootsDiffer(i, index);
      }
    }
  }

  lemma RemovedFollower(own: map<int, nat>, k: Links, ring: Rings, t: Shape, tbin: seq<int>, x: int, i: int)
    requires ListsOK(own, k, ring, t) && TreeHeads(ring, t, tbin) && x in own && own[x] >= MIN_LARGE
    requires own[x] in ring && 0 < i < |ring[own[x]]| && ring[own[x]][i] == x
    ensures var xs := ring[own[x]];
            var ring' := ring[own[x] := DropAt(xs, i)];
            && ListsOK(own - {x}, Bypass(k, Before(xs, i), After(xs, i)), ring', t)
            && TreeHeads(ring', t, tbin) && SameSmall(ring, ring')
  {
    var xs := ring[own[x]];
    DropFollower(own, k, ring, t, x, i);
    hide ListsOK;
    assert DropAt(xs, i)[0] == xs[0];
    assert forall q :: HeadOf(ring[own[x] := DropAt(xs, i)], t, q) == HeadOf(ring, t, q);
  }

  lemma RemovedLeaf(own: map<int, nat>, k: Links, ring: Rings, t: Shape, tbin: seq<int>, index: nat, x: int, n: Node)
    requires ListsOK(own, k, ring, t) && TreeHeads(ring, t, tbin) && x in own && own[x] >= MIN_LARGE && index < NBINS
    requires n in t && t[n] == own[x] && IsLeaf(t, n) && own[x] in ring && |ring[own[x]]| == 1 && ring[own[x]][0] == x
    requires n.IsRoot() ==> n == Root(index)
    ensures var ring', t' := ring - {own[x]}, t - {n};
            && ListsOK(own - {x}, LeafOut(k, x), ring', t')
            && TreeHeads(ring', t', if n.IsRoot() then tbin[index := 0] else tbin) && SameSmall(ring, ring')
  {
    assert ring[own[x]] == [x];
    DropLeaf(own, k, ring, t, x, n);
    ListsShape(own, k, ring, t);
    hide ListsOK;
    forall i | 0 <= i < NBINS
      ensures HeadOf(ring - {own[x]}, t - {n}, Root(i)) == (if n.IsRoot() then tbin[index := 0] else tbin)[i]
    {
      if Root(i) == n {
        RootsDiffer(i, index);
      }
    }
  }

  lemma RemovedInner(own: map<int, nat>, k: Links, ring: Rings, t: Shape, tbin: seq<int>, index: nat, x: int,
                     n: Node, leaf: Node)
    requires ListsOK(own, k, ring, t) && TreeHeads(ring, t, tbin) && x in own && own[x] >= MIN_LARGE && index < NBINS
    requires n in t && t[n] == own[x] && own[x] in ring && |ring[own[x]]| == 1 && ring[own[x]][0] == x
    requires leaf in t && leaf != n && IsLeaf(t, leaf) && Below(n, leaf)
    requires n.IsRoot() ==> n == Root(index)
    ensures var r := HeadOf(ring, t, leaf);
            var ring', t' := ring - {own[x]}, t[n := t[leaf]] - {leaf};
            && ListsOK(own - {x}, InnerOut(k, x, r), ring', t')
            && TreeHeads(ring', t', if n.IsRoot() then tbin[index := r] else tbin) && SameSmall(ring, ring')
    ensures var r := HeadOf(ring, t, leaf);
            && LinkOK(own, Get(k, r, Parent)) && Get(k, r, Parent) != 0 && r != x
            && Get(k, r, Parent) != r
  {
    var r := HeadOf(ring, t, leaf);
    assert ring[own[x]] == [x];
    DropInner(own, k, ring, t, x, n, leaf);
    ListsShape(own, k, ring, t);
    LeafUnder(t, n, leaf);
    HeadNeighbours(own, k, ring, t, leaf);
    NodeLinks(own, k, ring, t, leaf);
    SameHeadSameNode2(own, k, ring, t, n, leaf);
    forall i | 0 <= i < NBINS
      ensures HeadOf(ring - {own[x]}, t[n := t[leaf]] - {leaf}, Root(i)) ==
                (if n.IsRoot() then tbin[index := r] else tbin)[i]
    {
      InnerHeads(own, k, ring, t, n, leaf, Root(i));
      if Root(i) == n {
        RootsDiffer(i, index);
      }
    }
    hide ListsOK, HeadOf, InnerOut;
  }

  lemma InnerHeads(own: map<int, nat>, k: Links, ring: Rings, t: Shape, n: Node, leaf: Node, q: Node)
    requires ListsOK(own, k, ring, t) && n in t && leaf in t && leaf != n
    ensures HeadOf(ring - {t[n]}, t[n := t[leaf]] - {leaf}, q) ==
              if q == leaf then 0 else if q == n then HeadOf(ring, t, leaf) else HeadOf(ring, t, q)
  {
    InnerOutHeads(own, ring, t, n, leaf, q);
  }

  lemma SameHeadSameNode2(own: map<int, nat>, k: Links, ring: Rings, t: Shape, n: Node, leaf: Node)
    requires ListsOK(own, k, ring, t) && n in t && leaf in t && n != leaf
    ensures HeadOf(ring, t, n) != HeadOf(ring, t, leaf)
    ensures t[n] in ring && |ring[t[n]]| > 0 && HeadOf(ring, t, n) == ring[t[n]][0]
  {
    HeadFacts(own, k, ring, t);
  }

  lemma LeafTaken(t: Shape, n: Node, leaf: Node)
    requires LeafFor(t, n, leaf)
    ensures leaf in t && leaf != n && IsLeaf(t, leaf) && Below(n, leaf)
    ensures !IsLeaf(t, n) ==> NodeGone(t, n, t[n := t[leaf]] - {leaf})
    ensures IsLeaf(t, n) ==> NodeGone(t, n, t - {n})
  {
  }

  lemma LeafGone(t: Shape, n: Node)
    requires IsLeaf(t, n)
    ensures NodeGone(t, n, t - {n})
  {
  }

  /** The chunk, alone in its ring, leaves an inner node: a leaf from below takes its place. */
  method ReplaceByLeaf(s: KmState, chunk: int, index: nat, ghost n: Node, ghost k0: Links) returns (ghost leaf: Node)
    requires Stored(s.mem, s.own, s.links, s.heapStart, s.heapStart + s.heapSize) && SameBut(k0, s.links, chunk)
    requires ListsOK(s.own, k0, s.ring, s.shape) && TreeHeads(s.ring, s.shape, s.tbin)
    requires BranchesOK(s.own, k0, chunk) && index < NBINS && |s.tbin| == NBINS
    requires chunk in s.own && s.own[chunk] >= MIN_LARGE
    requires n in s.shape && s.shape[n] == s.own[chunk] && s.own[chunk] in s.ring
    requires |s.ring[s.own[chunk]]| == 1 && s.ring[s.own[chunk]][0] == chunk && HeadOf(s.ring, s.shape, n) == chunk
    requires !IsLeaf(s.shape, n) && (n.IsRoot() ==> n == Root(index))
    requires Get(k0, chunk, Parent) == 0 <==> n.IsRoot()
    modifies s`mem, s`links, s`tbin
    ensures Stored(s.mem, s.own, s.links, s.heapStart, s.heapStart + s.heapSize) && KeptOutside(old(s.mem), s.mem, s.own)
    ensures Get(s.links, chunk, Prev) == Get(old(s.links), chunk, Prev)
    ensures leaf in s.shape && leaf != n && |s.tbin| == NBINS && NodeGone(s.shape, n, s.shape[n := s.shape[leaf]] - {leaf})
    ensures var ring', t' := s.ring - {s.own[chunk]}, s.shape[n := s.shape[leaf]] - {leaf};
            && ListsOK(s.own - {chunk}, s.links, ring', t') && TreeHeads(ring', t', s.tbin) && SameSmall(s.ring, ring')
    ensures forall i :: 0 <= i < NBINS && i != index ==> s.tbin[i] == old(s.tbin)[i]
  {
    hide *;
    ghost var k := s.links;
    var r;
    r, leaf := FindLeaf(s, chunk, n, k0);
    LeafTaken(s.shape, n, leaf);
    InnerOutBut(k0, k, chunk, r);
    BranchesBut(s.own, k0, k, chunk);
    LinkBut(k0, k, chunk, r);
    RemovedInner(s.own, k0, s.ring, s.shape, s.tbin, index, chunk, n, leaf);
    LeafMoves(s.own, k, chunk, r);
    ListsBut(s.own - {chunk}, InnerOut(k0, chunk, r), InnerOut(k, chunk, r), s.ring - {s.own[chunk]},
             s.shape[n := s.shape[leaf]] - {leaf}, chunk);
    UpdateParentLink(s, r, 0);
    ghost var m1 := s.mem;
    TakeOverLinks(s, chunk, r);
    KeptTrans(old(s.mem), m1, s.mem, s.own);
    m1 := s.mem;
    var parent := s.GetLink(chunk, Parent);
    s.SetLink(r, Parent, parent);
    KeptTrans(old(s.mem), m1, s.mem, s.own);
    m1 := s.mem;
    parent := s.GetLink(r, Parent);
    if parent != 0 {
      UpdateParentLink(s, chunk, r);
      KeptTrans(old(s.mem), m1, s.mem, s.own);
    } else {
      s.tbin := s.tbin[index := r];
    }
  }

  /** The links met while leaf r moves into the place of x. */
  lemma LeafMoves(own: map<int, nat>, k: Links, x: int, r: int)
    requires BranchesOK(own, k, x) && r in own && own[r] >= MIN_LARGE && r != x && r != 0
    requires LinkOK(own, Get(k, r, Parent)) && Get(k, r, Parent) != 0
    ensures forall s: nat {:trigger Has(s, Parent)} :: s >= MIN_LARGE ==> Has(s, Parent)
    ensures own[x] >= MIN_LARGE && x in own
    ensures Get(k, r, Parent) in own && own[Get(k, r, Parent)] >= MIN_LARGE
    ensures var k1 := UpdateParent(k, r, 0);
            var k2 := TakeOver(k1, x, r);
            var k3 := Put(k2, r, Parent, Get(k2, x, Parent));
            && LinkOK(own, Get(k1, x, Left)) && LinkOK(own, Get(k1, x, Right))
            && Get(k2, x, Parent) == Get(k, x, Parent) && Get(k3, r, Parent) == Get(k, x, Parent)
            && Get(k3, x, Parent) == Get(k, x, Parent)
            && (Get(k3, r, Parent) != 0 ==> Get(k3, x, Parent) in own && own[Get(k3, x, Parent)] >= MIN_LARGE)
            && InnerOut(k, x, r) == if Get(k, x, Parent) != 0 then UpdateParent(k3, x, r) else k3
  {
  }

  /** What the code can tell from the tree links of a chunk that is alone in its ring. */
  lemma SingleFacts(own: map<int, nat>, k: Links, ring: Rings, t: Shape, n: Node, x: int)
    requires ListsOK(own, k, ring, t) && x in own && own[x] >= MIN_LARGE && n in t && t[n] == own[x]
    requires own[x] in ring && |ring[own[x]]| == 1 && ring[own[x]][0] == x
    ensures HeadOf(ring, t, n) == x && BranchesOK(own, k, x)
    ensures Get(k, x, Parent) == 0 <==> n.IsRoot()
    ensures IsLeaf(t, n) <==> Get(k, x, Left) == 0 && Get(k, x, Right) == 0
  {
    NodeLinks(own, k, ring, t, n);
    HeadNeighbours(own, k, ring, t, n);
    hide ListsOK, ShapeOK;
  }

  /** The part of kmalloc_tree_remove for a chunk that is alone in its ring.  It does not look at the chunk's prev
      link, which may be anything. */
  method RemoveSingle(s: KmState, chunk: int, index: nat, ghost n: Node, ghost k0: Links)
    requires Stored(s.mem, s.own, s.links, s.heapStart, s.heapStart + s.heapSize) && SameBut(k0, s.links, chunk)
    requires ListsOK(s.own, k0, s.ring, s.shape) && TreeHeads(s.ring, s.shape, s.tbin)
    requires chunk in s.own && s.own[chunk] >= MIN_LARGE && index < NBINS && |s.tbin| == NBINS
    requires n in s.shape && s.shape[n] == s.own[chunk] && s.own[chunk] in s.ring
    requires |s.ring[s.own[chunk]]| == 1 && s.ring[s.own[chunk]][0] == chunk && (n.IsRoot() ==> n == Root(index))
    modifies s`mem, s`links, s`tbin, s`ring, s`shape, s`own
    ensures Stored(s.mem, s.own, s.links, s.heapStart, s.heapStart + s.heapSize) && KeptOutside(old(s.mem), s.mem, old(s.own))
    ensures s.own == old(s.own) - {chunk} && FreeHeader(s.mem, chunk, old(s.own)[chunk])
    ensures ListsOK(s.own, s.links, s.ring, s.shape) && TreeHeads(s.ring, s.shape, s.tbin)
    ensures SameSmall(old(s.ring), s.ring) && |s.tbin| == NBINS
    ensures TreeLoses(old(s.ring), old(s.shape), chunk, old(s.own)[chunk], s.ring, s.shape)
    ensures forall i :: 0 <= i < NBINS && i != index ==> s.tbin[i] == old(s.tbin)[i]
    ensures W(s.mem, chunk + Offset(Prev)) == W(old(s.mem), chunk + Offset(Prev))
  {
    hide *;
    ghost var ring, t, own, tbin, k := s.ring, s.shape, s.own, s.tbin, s.links;
    SingleFacts(own, k0, ring, t, n, chunk);
    LinkBut(k0, k, chunk, chunk);
    SingleLinks(own, k0, k, chunk);
    PrevStored(s.mem, own, k, s.heapStart, s.heapStart + s.heapSize, chunk);
    var left := s.GetLink(chunk, Left);
    var right := s.GetLink(chunk, Right);
    var parent := s.GetLink(chunk, Parent);
    if left == 0 && right == 0 {
      RemovedLeaf(own, k0, ring, t, tbin, index, chunk, n);
      ListsBut(own - {chunk}, LeafOut(k0, chunk), LeafOut(k, chunk), ring - {own[chunk]}, t - {n}, chunk);
      if parent != 0 {
        UpdateParentLink(s, chunk, 0);
      } else {
        KeptSame(s.mem, own);
        s.tbin := s.tbin[index := 0];
      }
      s.ring := ring - {own[chunk]};
      s.shape := t - {n};
      LeafGone(t, n);
    } else {
      ghost var leaf := ReplaceByLeaf(s, chunk, index, n, k0);
      s.ring := ring - {own[chunk]};
      s.shape := t[n := t[leaf]] - {leaf};
    }
    PrevStored(s.mem, own, s.links, s.heapStart, s.heapStart + s.heapSize, chunk);
    StoredShrinks(s.mem, own, s.links, s.heapStart, s.heapStart + s.heapSize, chunk);
    s.own := own - {chunk};
    NodeLost(ring, t, chunk, own[chunk], n, s.shape);
  }

  lemma SingleLinks(own: map<int, nat>, k0: Links, k: Links, x: int)
    requires BranchesOK(own, k0, x) && SameBut(k0, k, x)
    ensures x in own && own[x] >= MIN_LARGE && forall f :: Has(own[x], f)
    ensures Get(k, x, Parent) != 0 ==> Get(k, x, Parent) in own && own[Get(k, x, Parent)] >= MIN_LARGE
    ensures LeafOut(k, x) == if Get(k, x, Parent) != 0 then UpdateParent(k, x, 0) else k
    ensures SameBut(LeafOut(k0, x), LeafOut(k, x), x) && Get(LeafOut(k, x), x, Prev) == Get(k, x, Prev)
  {
    InnerOutBut(k0, k, x, 0);
    hide UpdateParent, InnerOut;
  }

  lemma SameLinks(k: Links, x: int)
    ensures SameBut(k, k, x)
  {
  }

  lemma PrevStored(m: Mem, own: map<int, nat>, k: Links, lo: int, hi: int, x: int)
    requires Stored(m, own, k, lo, hi) && x in own
    ensures W(m, x + Offset(Prev)) == Get(k, x, Prev)
  {
    assert Has(own[x], Prev);
  }

  /** kmalloc_tree_remove: the chunk leaves the tree; nothing else changes. */
  method Remove(s: KmState, chunk: int, index: nat)
    requires Stored(s.mem, s.own, s.links, s.heapStart, s.heapStart + s.heapSize)
    requires ListsOK(s.own, s.links, s.ring, s.shape) && TreeHeads(s.ring, s.shape, s.tbin)
    requires chunk in s.own && Large(s.own[chunk]) && index == CalcTbin(s.own[chunk])
    modifies s`mem, s`links, s`tbin, s`ring, s`shape, s`own
    ensures Stored(s.mem, s.own, s.links, s.heapStart, s.heapStart + s.heapSize) && KeptOutside(old(s.mem), s.mem, old(s.own))
    ensures s.own == old(s.own) - {chunk} && FreeHeader(s.mem, chunk, old(s.own)[chunk])
    ensures ListsOK(s.own, s.links, s.ring, s.shape) && TreeHeads(s.ring, s.shape, s.tbin)
    ensures SameSmall(old(s.ring), s.ring)
    ensures TreeLoses(old(s.ring), old(s.shape), chunk, old(s.own)[chunk], s.ring, s.shape)
    ensures index < NBINS && |s.tbin| == |old(s.tbin)| == NBINS
    ensures forall i :: 0 <= i < NBINS && i != index ==> s.tbin[i] == old(s.tbin)[i]
  {
    hide *;
    ghost var k, ring, t, own, tbin := s.links, s.ring, s.shape, s.own, s.tbin;
    ghost var n, i;
    LargeSize(own[chunk]);
    n, i := WhereIs(own, k, ring, t, tbin, index, chunk);
    NeighbourFacts(own, k, chunk);
    var next := s.GetLink(chunk, Next);
    var prev := s.GetLink(chunk, Prev);
    var left := s.GetLink(chunk, Left);
    var right := s.GetLink(chunk, Right);
    var parent := s.GetLink(chunk, Parent);
    if next != chunk && prev != chunk {
      if chunk == s.tbin[index] || left != 0 || right != 0 || parent != 0 {
        RemovedHead(own, k, ring, t, tbin, index, chunk, n);
        HeadOutLinks(k, chunk, next, n.IsRoot());
        ReplaceHeadLinks(s, chunk, next);
        if chunk == s.tbin[index] {
          s.tbin := s.tbin[index := next];
        } else {
          ghost var m1 := s.mem;
          UpdateParentLink(s, chunk, next);
          KeptTrans(old(s.mem), m1, s.mem, own);
        }
      } else {
        RemovedFollower(own, k, ring, t, tbin, chunk, i);
        s.SetLink(prev, Next, next);
        ghost var m1 := s.mem;
        s.SetLink(next, Prev, prev);
        KeptTrans(old(s.mem), m1, s.mem, own);
      }
      s.ring := ring[own[chunk] := DropAt(ring[own[chunk]], i)];
      HeadLost(ring, t, chunk, own[chunk], i);
      StoredShrinks(s.mem, own, s.links, s.heapStart, s.heapStart + s.heapSize, chunk);
      s.own := own - {chunk};
    } else {
      SameLinks(k, chunk);
      RemoveSingle(s, chunk, index, n, k);
    }
  }

  lemma LargeSize(s: nat)
    requires Large(s)
    ensures MIN_LARGE <= s < SIZE_LIMIT
  {
  }

  lemma NeighbourFacts(own: map<int, nat>, k: Links, x: int)
    requires NeighboursOK(own, k, x)
    ensures x in own && own[x] >= MIN_LARGE
    ensures Get(k, x, Next) in own && Get(k, x, Prev) in own
    ensures Get(k, x, Parent) != 0 ==> Get(k, x, Parent) in own && own[Get(k, x, Parent)] >= MIN_LARGE
    ensures forall y, f :: y in own && own[y] >= MIN_LARGE ==> Has(own[y], f)
    ensures forall y :: y in own ==> Has(own[y], Next) && Has(own[y], Prev)
    ensures LeafOut(k, x) == if Get(k, x, Parent) != 0 then UpdateParent(k, x, 0) else k
    ensures Bypass(k, Get(k, x, Prev), Get(k, x, Next)) ==
              Put(Put(k, Get(k, x, Prev), Next, Get(k, x, Next)), Get(k, x, Next), Prev, Get(k, x, Prev))
  {
  }

  lemma HeadOutLinks(k: Links, x: int, r: int, isRoot: bool)
    ensures HeadOut(k, x, r, isRoot) == if isRoot then ReplaceHead(k, x, r) else UpdateParent(ReplaceHead(k, x, r), x, r)
  {
  }
}