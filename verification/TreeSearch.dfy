/** Searching the tree bins (kmalloc_tree_get_smallest and kmalloc_tree_get_best_fit). */
module TreeSearch {
  import opened Bits
  import opened BinIndex
  import opened Trie
  import opened FreeLists
  import opened HeapState

  /** r heads a ring of the smallest size under node n. */
  ghost predicate IsSmallest(ring: Rings, t: Shape, n: Node, r: int) {
    exists m :: m in t && Below(n, m) && r == HeadOf(ring, t, m) && LeastUnder(t, n, t[m])
  }

  ghost predicate LeastUnder(t: Shape, n: Node, size: nat) {
    forall q :: q in t && Below(n, q) ==> size <= t[q]
  }

  /** Whatever is under n and not smaller than best is still under cur. */
  ghost predicate RestUnder(t: Shape, n: Node, cur: Node, best: nat) {
    forall q :: q in t && Below(n, q) ==> best <= t[q] || Below(cur, q)
  }

  lemma StartAtRoot(t: Shape, n: Node)
    requires n in t
    ensures Below(n, n) && RestUnder(t, n, n, t[n])
  {
  }

  lemma ListsShape(own: map<int, nat>, k: Links, ring: Rings, t: Shape)
    requires ListsOK(own, k, ring, t)
    ensures ShapeOK(t)
  {
  }

  lemma VacantHead(ring: Rings, t: Shape, n: Node)
    requires n !in t
    ensures HeadOf(ring, t, n) == 0
  {
  }

  lemma StepDown(t: Shape, n: Node, cur: Node, best: nat, child: Node)
    requires ShapeOK(t) && cur in t && Below(n, cur) && RestUnder(t, n, cur, best) && best <= t[cur]
    requires child == if cur.Left() in t then cur.Left() else cur.Right()
    requires child in t
    ensures Below(n, child)
    ensures RestUnder(t, n, child, if t[child] < best then t[child] else best)
  {
    BelowChild(n, cur);
    forall q | q in t && Below(n, q) && q != cur && Below(cur, q) && !Below(child, q)
      ensures t[child] <= t[q]
    {
      BelowSplit(cur, q);
      if Below(cur.Left(), q) {
        AncestorIn(t, cur.Left(), q);
        assert false;
      } else if child == cur.Left() {
        BelowHolds(cur.Right(), q, t[q]);
        LeftBeforeRight(cur, t[child], t[q]);
      }
    }
  }

  lemma LeafIsLast(t: Shape, n: Node, cur: Node, best: nat)
    requires ShapeOK(t) && cur in t && IsLeaf(t, cur) && RestUnder(t, n, cur, best) && best <= t[cur]
    ensures LeastUnder(t, n, best)
  {
    forall q | q in t && Below(n, q)
      ensures best <= t[q]
    {
      if Below(cur, q) && q != cur {
        BelowSplit(cur, q);
        AncestorIn(t, if Below(cur.Left(), q) then cur.Left() else cur.Right(), q);
      }
    }
  }

  /** The heads and tree links of one node, as the code reads them. */
  lemma NodeLinks(own: map<int, nat>, k: Links, ring: Rings, t: Shape, n: Node)
    requires ListsOK(own, k, ring, t) && n in t
    ensures n.depth >= 3 && n.prefix >= 2
    ensures var h := HeadOf(ring, t, n);
            && h in own && own[h] == t[n] && t[n] >= MIN_LARGE && h > 0
            && Get(k, h, Left) == HeadOf(ring, t, n.Left()) && (n.Left() in t <==> HeadOf(ring, t, n.Left()) != 0)
            && Get(k, h, Right) == HeadOf(ring, t, n.Right()) && (n.Right() in t <==> HeadOf(ring, t, n.Right()) != 0)
            && Get(k, h, Parent) == if n.IsRoot() then 0 else HeadOf(ring, t, n.Parent())
  {
    HeadFacts(own, k, ring, t);
    DepthBound(t, n);
    assert NodeAt(k, ring, t, n);
    assert t[n] in ring && ring[t[n]][0] in own;
  }

  /** kmalloc_tree_get_smallest: the least size under the node, found on a single path. */
  method GetSmallest(s: KmState, chunk: int, ghost n: Node) returns (r: int)
    requires Stored(s.mem, s.own, s.links, s.heapStart, s.heapStart + s.heapSize) && ListsOK(s.own, s.links, s.ring, s.shape)
    requires chunk == HeadOf(s.ring, s.shape, n)
    ensures n !in s.shape ==> r == 0
    ensures n in s.shape ==> r in s.own && IsSmallest(s.ring, s.shape, n, r)
  {
    hide ListsOK, Stored, HeadOf, Below, RestUnder, LeastUnder;
    ghost var t := s.shape;
    if n in t {
      StartAtRoot(t, n);
      NodeLinks(s.own, s.links, s.ring, t, n);
    } else {
      VacantHead(s.ring, t, n);
    }
    if chunk == 0 {
      return 0;
    }
    var cur := chunk;
    r := cur;
    var smallestSize := s.GetSize(cur);
    ghost var c, b := n, n;
    var left := s.GetLink(cur, Left);
    var right := s.GetLink(cur, Right);
    while left != 0 || right != 0
      invariant c in t && Below(n, c) && cur == HeadOf(s.ring, t, c) && cur in s.own && s.own[cur] == t[c] >= MIN_LARGE
      invariant left == HeadOf(s.ring, t, c.Left()) && right == HeadOf(s.ring, t, c.Right())
      invariant left != 0 <==> c.Left() in t
      invariant right != 0 <==> c.Right() in t
      invariant b in t && Below(n, b) && r == HeadOf(s.ring, t, b) && r in s.own && smallestSize == t[b] <= t[c]
      invariant RestUnder(t, n, c, smallestSize)
      invariant c.depth >= 3
      decreases c.depth
    {
      ghost var child := if left != 0 then c.Left() else c.Right();
      ListsShape(s.own, s.links, s.ring, t);
      StepDown(t, n, c, smallestSize, child);
      NodeLinks(s.own, s.links, s.ring, t, child);
      cur := if left != 0 then left else right;
      c := child;
      var size := s.GetSize(cur);
      if size < smallestSize {
        r := cur;
        smallestSize := size;
        b := c;
      }
      left := s.GetLink(cur, Left);
      right := s.GetLink(cur, Right);
    }
    assert ShapeOK(t) by { ListsShape(s.own, s.links, s.ring, t); }
    LeafIsLast(t, n, c, smallestSize);
  }

  // ----- best fit

  /** Some chunk under n has at least the size. */
  ghost predicate SomeFits(t: Shape, n: Node, size: nat) {
    exists q :: q in t && Below(n, q) && t[q] >= size
  }

  /** No chunk under n that has at least the size is smaller than best. */
  ghost predicate LeastFit(t: Shape, n: Node, size: nat, best: nat) {
    forall q :: q in t && Below(n, q) && t[q] >= size ==> best <= t[q]
  }

  /** The same for the nodes on the search path only, from depth top down. */
  ghost predicate LeastOnPath(t: Shape, size: nat, top: int, best: nat) {
    forall d :: d <= top && PathNode(size, d) in t && t[PathNode(size, d)] >= size ==> best <= t[PathNode(size, d)]
  }

  /** The descent passed the path nodes from top down to above low, without an exact fit; low is vacant. */
  ghost predicate Descended(t: Shape, size: nat, top: int, low: int) {
    && 0 <= low < top
    && PathNode(size, low) !in t
    && (forall d :: low < d <= top ==> PathNode(size, d) in t && t[PathNode(size, d)] != size)
  }

  /** Depth of the smallest fitting path node, or -1. */
  ghost predicate BestOnPath(t: Shape, size: nat, top: int, low: int, best: int) {
    && (best != -1 ==> low < best <= top && PathNode(size, best) in t && t[PathNode(size, best)] > size)
    && (forall d :: low < d <= top && PathNode(size, d) in t && t[PathNode(size, d)] > size ==>
          best != -1 && PathNode(size, best) in t && t[PathNode(size, best)] <= t[PathNode(size, d)])
  }

  /** Nothing in the path's stretch between low and high can be taken. */
  ghost predicate Climbed(t: Shape, size: nat, low: int, high: int) {
    forall e :: low < e < high ==> !Escapes(t, size, e)
  }

  /** A path node in the trie is above every vacant one. */
  lemma VacantBelow(t: Shape, size: nat, top: int, low: int, d: int)
    requires ShapeOK(t) && 0 <= low <= top && PathNode(size, low) !in t && Shr(size, top) >= 2
    requires PathNode(size, d) in t
    ensures low < d
  {
    if d <= low {
      var vacant := PathNode(size, low);
      assert Below(vacant, PathNode(size, d)) && vacant.prefix >= 2 by {
        DepthBound(t, PathNode(size, d));
        ShrShr(size, d, low - d);
        ShrShr(size, low, top - low);
        ShrLe(Shr(size, low), top - low);
      }
      AncestorIn(t, vacant, PathNode(size, d));
    }
  }

  lemma PathEnds(t: Shape, size: nat, top: int, low: int, d: int)
    requires ShapeOK(t) && Descended(t, size, top, low) && Shr(size, top) >= 2
    requires PathNode(size, d) in t
    ensures low < d
  {
    VacantBelow(t, size, top, low, d);
  }

  /** A fitting chunk off the path sits in an escape at or above the place the climb has reached. */
  lemma FitsAbove(t: Shape, size: nat, top: int, low: int, high: int, q: Node) returns (e: int)
    requires ShapeOK(t) && Descended(t, size, top, low) && Shr(size, top) >= 2 && Climbed(t, size, low, high)
    requires q in t && Below(PathNode(size, top), q) && t[q] >= size
    ensures e == -1 ==> low < q.depth <= top && q == PathNode(size, q.depth) && t[q] > size
    ensures e != -1 ==> low < e && high <= e <= top && EscapesTo(t, size, e, q)
  {
    if q == PathNode(size, q.depth) {
      PathEnds(t, size, top, low, q.depth);
      e := -1;
    } else {
      assert t[q] != size;
      FitIsReachable(t, size, top, q);
      e :| q.depth < e <= top && EscapesTo(t, size, e, q);
      PathEnds(t, size, top, low, e);
      DepthBound(t, q);
    }
  }

  /** The climb stops at a path node that fits and has no escape: it is the best fit. */
  lemma PathNodeIsBest(t: Shape, size: nat, top: int, low: int, e: int)
    requires ShapeOK(t) && Descended(t, size, top, low) && Shr(size, top) >= 2
    requires BestOnPath(t, size, top, low, e) && e != -1 && Climbed(t, size, low, e + 1)
    ensures LeastFit(t, PathNode(size, top), size, t[PathNode(size, e)])
    ensures Below(PathNode(size, top), PathNode(size, e))
  {
    hide Descended, Climbed, EscapesTo, ShapeOK, Below;
    var m := PathNode(size, e);
    Occupied(t, m);
    forall q | q in t && Below(PathNode(size, top), q) && t[q] >= size
      ensures t[m] <= t[q]
    {
      var f := FitsAbove(t, size, top, low, e + 1, q);
      if f != -1 {
        EscapeAbove(t, size, e, m, f, q);
      }
    }
    PathBelowTop(t, size, top, e);
  }

  /** The climb stops at an escape: the least chunk of that subtree fits. */
  lemma EscapeIsFit(t: Shape, size: nat, top: int, e: int, m: Node)
    requires ShapeOK(t) && 0 <= e <= top && EscapesTo(t, size, e, m) && m in t
    ensures t[m] > size && Below(PathNode(size, top), m) && Holds(PathNode(size, e), t[m])
  {
    EscapeFits(t, size, e, m);
    Occupied(t, m);
    BelowHolds(PathNode(size, e).Right(), m, t[m]);
    HoldsUp(size, t[m], e, top, m);
  }

  /** Only path nodes may fit better than the chunk the climb escapes to. */
  lemma EscapeIsBest(t: Shape, size: nat, top: int, low: int, e: int, m: Node)
    requires ShapeOK(t) && Descended(t, size, top, low) && Shr(size, top) >= 2 && 0 <= low < e <= top
    requires Climbed(t, size, low, e) && EscapesTo(t, size, e, m)
    requires m in t && LeastUnder(t, PathNode(size, e).Right(), t[m])
    ensures LeastFit(t, PathNode(size, top), size, t[m]) <==> LeastOnPath(t, size, top, t[m])
  {
    hide Climbed, ShapeOK, Descended, Escapes;
    EscapeIsFit(t, size, top, e, m);
    if LeastOnPath(t, size, top, t[m]) {
      forall q | q in t && Below(PathNode(size, top), q) && t[q] >= size
        ensures t[m] <= t[q]
      {
        var f := FitsAbove(t, size, top, low, e, q);
        if f > e {
          hide LeastUnder, LeastOnPath, LeastFit;
          EscapeAbove(t, size, e, m, f, q);
        }
      }
    } else {
      var d :| d <= top && PathNode(size, d) in t && t[PathNode(size, d)] >= size && t[m] > t[PathNode(size, d)];
      PathBelowTop(t, size, top, d);
    }
  }

  lemma PathBelowTop(t: Shape, size: nat, top: int, d: int)
    requires ShapeOK(t) && d <= top && PathNode(size, d) in t
    ensures Below(PathNode(size, top), PathNode(size, d))
  {
    DepthBound(t, PathNode(size, d));
    ShrShr(size, d, top - d);
  }

  lemma HoldsUp(size: nat, other: nat, e: int, top: int, m: Node)
    requires 0 <= e <= top && Shr(other, e) == Shr(size, e) && Holds(m, other) && 0 <= m.depth <= e
    ensures Below(PathNode(size, top), m)
  {
    ShrShr(other, e, top - e);
    ShrShr(size, e, top - e);
    HoldsBelow(PathNode(size, top), m, other);
  }

  /** The climb leaves through the root: nothing fits. */
  lemma NothingFits(t: Shape, size: nat, top: int, low: int)
    requires ShapeOK(t) && Descended(t, size, top, low) && Shr(size, top) >= 2
    requires BestOnPath(t, size, top, low, -1) && Climbed(t, size, low, top + 1)
    ensures !SomeFits(t, PathNode(size, top), size)
  {
    forall q | q in t && Below(PathNode(size, top), q) && t[q] >= size
      ensures false
    {
      var f := FitsAbove(t, size, top, low, top + 1, q);
    }
  }

  /** What a best-fit search in the tree under root promises. */
  ghost predicate BestFitFound(own: map<int, nat>, ring: Rings, t: Shape, root: Node, size: nat, r: int) {
    && (r == 0 <==> !SomeFits(t, root, size))
    && (r != 0 ==>
          && r in own && own[r] >= size
          && (exists m :: m in t && Below(root, m) && r == HeadOf(ring, t, m) && own[r] == t[m])
          && ((exists q :: q in t && Below(root, q) && t[q] == size) ==> own[r] == size)
          && (LeastFit(t, root, size, own[r]) <==> LeastOnPath(t, size, root.depth, own[r])))
  }

  /** The path first escapes at depth e, but the smallest fitting node of the path, at depth d, is not below it, and
      smaller than all the path escapes to there; and no size is the one searched for. */
  ghost predicate MissesAt(t: Shape, size: nat, top: int, e: int, d: int) {
    && Escapes(t, size, e) && (forall f :: f < e ==> !Escapes(t, size, f))
    && e <= d <= top && PathNode(size, d) in t && t[PathNode(size, d)] > size
    && LeastOnPath(t, size, top, t[PathNode(size, d)])
    && (forall m :: m in t && Below(PathNode(size, e).Right(), m) ==> t[PathNode(size, d)] < t[m])
    && (forall f :: f <= top && PathNode(size, f) in t ==> t[PathNode(size, f)] != size)
  }

  /** When the search misses the best fit: a test of the tree and the request. */
  ghost predicate Misses(t: Shape, size: nat, top: int) {
    exists e, d :: MissesAt(t, size, top, e, d)
  }

  /** The answer is the best fit exactly when the search does not miss it; when it does, the answer is the least chunk
      the path escapes to. */
  ghost predicate MissExact(own: map<int, nat>, ring: Rings, t: Shape, size: nat, top: int, r: int) {
    && (r != 0 ==> r in own && (LeastFit(t, PathNode(size, top), size, own[r]) <==> !Misses(t, size, top)))
    && (forall e, d :: MissesAt(t, size, top, e, d) ==> IsSmallest(ring, t, PathNode(size, e).Right(), r))
  }

  /** An exact fit is never missed. */
  lemma ExactNoMiss(t: Shape, size: nat, top: int, d: int)
    requires d <= top && PathNode(size, d) in t && t[PathNode(size, d)] == size
    ensures !Misses(t, size, top)
  {
    hide Escapes, Below, PathNode;
  }

  /** The climb stopped at depth e: there is no escape up to there. */
  lemma ClimbedNoEscape(t: Shape, size: nat, top: int, low: int, e: int, f: int)
    requires ShapeOK(t) && Descended(t, size, top, low) && Shr(size, top) >= 2
    requires Climbed(t, size, low, e) && f < e
    ensures !Escapes(t, size, f)
  {
    if Escapes(t, size, f) {
      PathEnds(t, size, top, low, f);
    }
  }

  /** The smallest path node was reached before any escape: it can not have been missed. */
  lemma BestNoMiss(own: map<int, nat>, k: Links, ring: Rings, t: Shape, size: nat, top: int, low: int, e: int)
    requires ListsOK(own, k, ring, t) && ShapeOK(t) && Descended(t, size, top, low) && Shr(size, top) >= 2
    requires BestOnPath(t, size, top, low, e) && e != -1 && Climbed(t, size, low, e + 1)
    ensures !Misses(t, size, top)
  {
    hide ListsOK, ShapeOK, Escapes, Below, PathNode;
    forall f, d | MissesAt(t, size, top, f, d)
      ensures false
    {
      ClimbedLow(t, size, top, low, e, f);
      assert t[PathNode(size, d)] == t[PathNode(size, e)];
      SameSizeSameNode(own, k, ring, t, PathNode(size, d), PathNode(size, e));
      DepthOfPath(size, d);
      DepthOfPath(size, e);
    }
  }

  lemma ClimbedLow(t: Shape, size: nat, top: int, low: int, e: int, f: int)
    requires ShapeOK(t) && Descended(t, size, top, low) && Shr(size, top) >= 2
    requires Climbed(t, size, low, e + 1) && Escapes(t, size, f)
    ensures f > e
  {
    if f <= e {
      ClimbedNoEscape(t, size, top, low, e + 1, f);
    }
  }

  lemma SameSizeSameNode(own: map<int, nat>, k: Links, ring: Rings, t: Shape, n: Node, m: Node)
    requires ListsOK(own, k, ring, t) && n in t && m in t && t[n] == t[m]
    ensures n == m
  {
    SameHeadSameNode(own, k, ring, t, n, m);
  }

  lemma NoMissFound(own: map<int, nat>, ring: Rings, t: Shape, size: nat, top: int, r: int)
    requires !Misses(t, size, top) && (r != 0 ==> r in own && LeastFit(t, PathNode(size, top), size, own[r]))
    ensures MissExact(own, ring, t, size, top, r)
  {
    hide MissesAt, IsSmallest;
  }

  /** The climb ended at an escape: what it took is the best fit unless the smallest path node fits better. */
  lemma EscapeMisses(own: map<int, nat>, ring: Rings, t: Shape, size: nat, top: int, low: int, best: int, e: int, r: int)
    requires ShapeOK(t) && Descended(t, size, top, low) && Shr(size, top) >= 2 && 0 <= low < e <= top
    requires BestOnPath(t, size, top, low, best) && (best == -1 || best >= e)
    requires Climbed(t, size, low, e) && Escapes(t, size, e) && IsSmallest(ring, t, PathNode(size, e).Right(), r)
    requires r != 0 && r in own && forall m :: m in t && r == HeadOf(ring, t, m) ==> own[r] == t[m]
    requires BestFitFound(own, ring, t, PathNode(size, top), size, r)
    ensures MissExact(own, ring, t, size, top, r)
  {
    var n := PathNode(size, e).Right();
    var b :| b in t && Below(n, b) && r == HeadOf(ring, t, b) && LeastUnder(t, n, t[b]);
    forall f | f < e
      ensures !Escapes(t, size, f)
    {
      ClimbedNoEscape(t, size, top, low, e, f);
    }
    if !LeastFit(t, PathNode(size, top), size, own[r]) {
      BestMissed(t, size, top, low, best, e, own[r]);
    }
    forall f, d | MissesAt(t, size, top, f, d)
      ensures f == e && !LeastOnPath(t, size, top, own[r])
    {
      assert f == e;
    }
    DepthOfPath(size, top);
    hide PathNode, IsSmallest, Escapes, ShapeOK, Descended, Below;
  }

  lemma BestMissed(t: Shape, size: nat, top: int, low: int, best: int, e: int, least: nat)
    requires ShapeOK(t) && Descended(t, size, top, low) && Shr(size, top) >= 2
    requires BestOnPath(t, size, top, low, best) && (best == -1 || best >= e)
    requires Escapes(t, size, e) && (forall f :: f < e ==> !Escapes(t, size, f))
    requires LeastUnder(t, PathNode(size, e).Right(), least) && !LeastOnPath(t, size, top, least)
    ensures Misses(t, size, top)
  {
    hide ShapeOK, Escapes, Below, PathNode;
    forall d | d <= top && PathNode(size, d) in t
      ensures low < d
    {
      PathEnds(t, size, top, low, d);
    }
    assert MissesAt(t, size, top, e, best);
  }

  lemma NothingMissed(t: Shape, size: nat, top: int, low: int)
    requires ShapeOK(t) && Descended(t, size, top, low) && Shr(size, top) >= 2 && BestOnPath(t, size, top, low, -1)
    ensures !Misses(t, size, top)
  {
    hide ShapeOK, Escapes, Below, PathNode;
    forall f, d | MissesAt(t, size, top, f, d)
      ensures false
    {
      PathEnds(t, size, top, low, d);
    }
  }

  lemma FoundExact(own: map<int, nat>, ring: Rings, t: Shape, size: nat, top: int, d: int, r: int)
    requires ShapeOK(t) && d <= top && PathNode(size, d) in t && t[PathNode(size, d)] == size
    requires r == HeadOf(ring, t, PathNode(size, d)) && r in own && own[r] == size && r != 0
    ensures BestFitFound(own, ring, t, PathNode(size, top), size, r)
  {
    PathBelowTop(t, size, top, d);
  }

  lemma FoundOnPath(own: map<int, nat>, ring: Rings, t: Shape, size: nat, top: int, low: int, e: int, r: int)
    requires ShapeOK(t) && Descended(t, size, top, low) && Shr(size, top) >= 2
    requires BestOnPath(t, size, top, low, e) && e != -1 && Climbed(t, size, low, e + 1)
    requires var m := PathNode(size, e); m in t && r == HeadOf(ring, t, m) && r in own && own[r] == t[m] && r != 0
    ensures BestFitFound(own, ring, t, PathNode(size, top), size, r)
  {
    var m := PathNode(size, e);
    PathNodeIsBest(t, size, top, low, e);
    NoExact(t, size, top, low);
    forall d | d <= top && PathNode(size, d) in t && t[PathNode(size, d)] >= size
      ensures t[m] <= t[PathNode(size, d)]
    {
      PathBelowTop(t, size, top, d);
    }
  }

  lemma NoExact(t: Shape, size: nat, top: int, low: int)
    requires ShapeOK(t) && Descended(t, size, top, low) && Shr(size, top) >= 2
    ensures forall q :: q in t && Below(PathNode(size, top), q) ==> t[q] != size
  {
    forall q | q in t && Below(PathNode(size, top), q)
      ensures t[q] != size
    {
      if t[q] == size {
        Occupied(t, q);
        assert q == PathNode(size, q.depth);
        PathEnds(t, size, top, low, q.depth);
      }
    }
  }

  lemma FoundByEscape(own: map<int, nat>, ring: Rings, t: Shape, size: nat, top: int, low: int, e: int, r: int)
    requires ShapeOK(t) && Descended(t, size, top, low) && Shr(size, top) >= 2 && 0 <= low < e <= top
    requires Climbed(t, size, low, e) && Escapes(t, size, e)
    requires IsSmallest(ring, t, PathNode(size, e).Right(), r)
    requires r != 0 && r in own && forall m :: m in t && r == HeadOf(ring, t, m) ==> own[r] == t[m]
    ensures BestFitFound(own, ring, t, PathNode(size, top), size, r)
  {
    var n := PathNode(size, e).Right();
    var m :| m in t && Below(n, m) && r == HeadOf(ring, t, m) && LeastUnder(t, n, t[m]);
    assert EscapesTo(t, size, e, m);
    EscapeIsFit(t, size, top, e, m);
    EscapeIsBest(t, size, top, low, e, m);
    NoExact(t, size, top, low);
  }

  lemma PathStep(size: nat, d: int)
    requires d > 0
    ensures PathNode(size, d - 1) == if Bit(size, d - 1) then PathNode(size, d).Right() else PathNode(size, d).Left()
    ensures PathNode(size, d - 1).Parent() == PathNode(size, d)
  {
  }

  /** The pointer to the remembered path node. */
  function PathHead(ring: Rings, t: Shape, size: nat, d: int): int {
    if d == -1 then 0 else HeadOf(ring, t, PathNode(size, d))
  }

  ghost predicate Passed(t: Shape, size: nat, top: int, low: int) {
    forall d :: low < d <= top ==> PathNode(size, d) in t && t[PathNode(size, d)] != size
  }

  lemma PassOne(t: Shape, size: nat, top: int, d: int, best: int)
    requires Passed(t, size, top, d) && BestOnPath(t, size, top, d, best) && 0 <= d <= top
    requires PathNode(size, d) in t && t[PathNode(size, d)] != size
    ensures Passed(t, size, top, d - 1)
    ensures best == -1 ==> BestOnPath(t, size, top, d - 1, if t[PathNode(size, d)] > size then d else -1)
    ensures best != -1 ==> PathNode(size, best) in t
    ensures best != -1 ==> BestOnPath(t, size, top, d - 1,
              if size < t[PathNode(size, d)] < t[PathNode(size, best)] then d else best)
  {
    hide PathNode;
  }

  ghost predicate ExactAt(ring: Rings, t: Shape, size: nat, d: int, r: int) {
    PathNode(size, d) in t && t[PathNode(size, d)] == size && r == HeadOf(ring, t, PathNode(size, d))
  }

  /** First loop: down the path of the size, remembering the smallest path node that fits. */
  method Descend(s: KmState, size: nat, root: int, depth: nat, ghost index: nat)
    returns (exact: int, parent: int, cur: int, smallest: int, ghost low: int, ghost best: int)
    requires Stored(s.mem, s.own, s.links, s.heapStart, s.heapStart + s.heapSize) && ListsOK(s.own, s.links, s.ring, s.shape)
    requires root == HeadOf(s.ring, s.shape, PathNode(size, depth)) && root != 0
    ensures exact != 0 ==> low <= depth && ExactAt(s.ring, s.shape, size, low, exact)
    ensures exact == 0 ==>
              && Descended(s.shape, size, depth, low) && BestOnPath(s.shape, size, depth, low, best)
              && smallest == PathHead(s.ring, s.shape, size, best) && cur == 0
              && parent == HeadOf(s.ring, s.shape, PathNode(size, low + 1))
  {
    hide ListsOK, Stored, HeadOf, PathNode, BestOnPath, Passed;
    ghost var t := s.shape;
    cur, parent, smallest, exact := root, 0, 0, 0;
    var smallestSize := 0;
    var d: int := depth;
    best := -1;
    assert Passed(t, size, depth, d) && BestOnPath(t, size, depth, d, best) by {
      NothingPassed(t, size, depth);
    }
    while cur != 0
      invariant 2 <= d <= depth || d == depth
      invariant cur == HeadOf(s.ring, t, PathNode(size, d))
      invariant Passed(t, size, depth, d) && BestOnPath(t, size, depth, d, best)
      invariant smallest == PathHead(s.ring, t, size, best) && (smallest == 0 <==> best == -1)
      invariant best != -1 ==> PathNode(size, best) in t && smallestSize == t[PathNode(size, best)]
      invariant if d == depth then cur == root else parent == HeadOf(s.ring, t, PathNode(size, d + 1))
      invariant d == depth ==> cur != 0
      decreases d
    {
      ghost var n := PathNode(size, d);
      assert n in t by {
        OccupiedHead(s.ring, t, n);
      }
      NodeLinks(s.own, s.links, s.ring, t, n);
      DepthOfPath(size, d);
      var curSize := s.GetSize(cur);
      if size == curSize {
        exact := cur;
        low := d;
        return;
      }
      PassOne(t, size, depth, d, best);
      if curSize > size && (smallest == 0 || curSize < smallestSize) {
        smallest, smallestSize := cur, curSize;
        best := d;
      }
      parent := cur;
      PathStep(size, d);
      if Bit(size, d - 1) {
        cur := s.GetLink(cur, Right);
      } else {
        cur := s.GetLink(cur, Left);
      }
      d := d - 1;
      if d < 0 {
        assert false;
      }
    }
    low := d;
    assert PathNode(size, d) !in t by {
      if PathNode(size, d) in t {
        NodeLinks(s.own, s.links, s.ring, t, PathNode(size, d));
      }
    }
    PassedAll(t, size, depth, d);
  }

  lemma NothingPassed(t: Shape, size: nat, top: int)
    ensures Passed(t, size, top, top) && BestOnPath(t, size, top, top, -1)
  {
  }

  lemma PassedAll(t: Shape, size: nat, top: int, low: int)
    requires Passed(t, size, top, low) && PathNode(size, low) !in t && 0 <= low < top
    ensures Descended(t, size, top, low)
  {
  }

  lemma OccupiedHead(ring: Rings, t: Shape, n: Node)
    ensures HeadOf(ring, t, n) != 0 ==> n in t
  {
  }

  lemma DepthOfPath(size: nat, d: int)
    ensures PathNode(size, d).depth == d
  {
  }

  /** The climb has reached the path node at depth e and found nothing to take below it. */
  ghost predicate ClimbState(own: map<int, nat>, k: Links, ring: Rings, t: Shape, size: nat,
                             top: int, low: int, best: int, e: int, parent: int, cur: int)
  {
    && ListsOK(own, k, ring, t)
    && 2 <= Shr(size, top) < 4
    && Descended(t, size, top, low) && BestOnPath(t, size, top, low, best)
    && low < e <= top
    && parent == HeadOf(ring, t, PathNode(size, e))
    && cur == HeadOf(ring, t, PathNode(size, e - 1))
    && Climbed(t, size, low, e) && (best == -1 || best >= e)
  }

  lemma ClimbNode(own: map<int, nat>, k: Links, ring: Rings, t: Shape, size: nat,
                  top: int, low: int, best: int, e: int, parent: int, cur: int)
    requires ClimbState(own, k, ring, t, size, top, low, best, e, parent, cur)
    ensures parent in own && e <= top
    ensures forall f :: Has(own[parent], f)
  {
    NodeLinks(own, k, ring, t, PathNode(size, e));
    LargeHas(own[parent]);
  }

  /** No right child to escape to: the climb may pass depth e. */
  lemma ClimbedOne(own: map<int, nat>, k: Links, ring: Rings, t: Shape, size: nat,
                   top: int, low: int, best: int, e: int, parent: int, cur: int)
    requires ClimbState(own, k, ring, t, size, top, low, best, e, parent, cur)
    requires Get(k, parent, Right) == 0 || Get(k, parent, Right) == cur
    ensures Climbed(t, size, low, e + 1)
  {
    var n := PathNode(size, e);
    NodeLinks(own, k, ring, t, n);
    if n.Right() in t {
      SameHeadSameNode(own, k, ring, t, n.Right(), PathNode(size, e - 1));
    }
    NotEscape(t, size, e, low);
  }

  lemma ClimbEndsAtBest(own: map<int, nat>, k: Links, ring: Rings, t: Shape, size: nat,
                        top: int, low: int, best: int, e: int, parent: int, cur: int)
    requires ClimbState(own, k, ring, t, size, top, low, best, e, parent, cur)
    requires Climbed(t, size, low, e + 1) && parent == PathHead(ring, t, size, best)
    ensures BestFitFound(own, ring, t, PathNode(size, top), size, parent)
    ensures MissExact(own, ring, t, size, top, parent)
  {
    hide MissExact, Misses, ListsOK;
    BestIsHere(own, k, ring, t, size, top, low, best, e);
    NodeLinks(own, k, ring, t, PathNode(size, e));
    ListsShape(own, k, ring, t);
    FoundOnPath(own, ring, t, size, top, low, e, parent);
    PathNodeIsBest(t, size, top, low, e);
    BestNoMiss(own, k, ring, t, size, top, low, e);
    NoMissFound(own, ring, t, size, top, parent);
  }

  lemma ClimbEndsAtRoot(own: map<int, nat>, k: Links, ring: Rings, t: Shape, size: nat,
                        top: int, low: int, best: int, e: int, parent: int, cur: int)
    requires ClimbState(own, k, ring, t, size, top, low, best, e, parent, cur)
    requires Climbed(t, size, low, e + 1) && parent != PathHead(ring, t, size, best)
    requires Get(k, parent, Parent) == 0
    ensures BestFitFound(own, ring, t, PathNode(size, top), size, 0)
    ensures MissExact(own, ring, t, size, top, 0)
  {
    hide MissExact;
    var n := PathNode(size, e);
    NodeLinks(own, k, ring, t, n);
    if e < top {
      PathRoot(size, top, e);
      PathStep(size, e + 1);
      NodeLinks(own, k, ring, t, PathNode(size, e + 1));
    }
    assert e == top && best == -1;
    NothingFits(t, size, top, low);
    ListsShape(own, k, ring, t);
    NothingMissed(t, size, top, low);
    NoMissFound(own, ring, t, size, top, 0);
  }

  lemma ClimbStep(own: map<int, nat>, k: Links, ring: Rings, t: Shape, size: nat,
                  top: int, low: int, best: int, e: int, parent: int, cur: int)
    requires ClimbState(own, k, ring, t, size, top, low, best, e, parent, cur)
    requires Climbed(t, size, low, e + 1) && parent != PathHead(ring, t, size, best)
    requires Get(k, parent, Parent) != 0
    ensures ClimbState(own, k, ring, t, size, top, low, best, e + 1, Get(k, parent, Parent), parent)
  {
    NodeLinks(own, k, ring, t, PathNode(size, e));
    PathRoot(size, top, e);
    PathStep(size, e + 1);
  }

  lemma ClimbEscapes(own: map<int, nat>, k: Links, ring: Rings, t: Shape, size: nat,
                     top: int, low: int, best: int, e: int, parent: int, cur: int)
    requires ClimbState(own, k, ring, t, size, top, low, best, e, parent, cur)
    requires Get(k, parent, Right) != 0 && Get(k, parent, Right) != cur
    ensures Get(k, parent, Right) == HeadOf(ring, t, PathNode(size, e).Right()) && PathNode(size, e).Right() in t
    ensures forall r :: IsSmallest(ring, t, PathNode(size, e).Right(), r) ==>
                          BestFitFound(own, ring, t, PathNode(size, top), size, r) && MissExact(own, ring, t, size, top, r)
  {
    var n := PathNode(size, e);
    hide BestFitFound, IsSmallest, MissExact;
    ListsShape(own, k, ring, t);
    NodeLinks(own, k, ring, t, n);
    IsEscape(t, size, e);
    forall r | IsSmallest(ring, t, n.Right(), r)
      ensures BestFitFound(own, ring, t, PathNode(size, top), size, r) && MissExact(own, ring, t, size, top, r)
    {
      EscapeHead(own, k, ring, t, n.Right(), r);
      FoundByEscape(own, ring, t, size, top, low, e, r);
      EscapeMisses(own, ring, t, size, top, low, best, e, r);
    }
  }

  /** Second loop: up the path until the remembered node or a right subtree is reached. */
  method Climb(s: KmState, size: nat, ghost top: nat, start: int, smallest: int, ghost low: int, ghost best: int)
    returns (r: int)
    requires Stored(s.mem, s.own, s.links, s.heapStart, s.heapStart + s.heapSize) && ListsOK(s.own, s.links, s.ring, s.shape)
    requires 2 <= Shr(size, top) < 4
    requires Descended(s.shape, size, top, low) && BestOnPath(s.shape, size, top, low, best)
    requires smallest == PathHead(s.ring, s.shape, size, best)
    requires start == HeadOf(s.ring, s.shape, PathNode(size, low + 1))
    ensures BestFitFound(s.own, s.ring, s.shape, PathNode(size, top), size, r)
    ensures MissExact(s.own, s.ring, s.shape, size, top, r)
  {
    hide *;
    ghost var t := s.shape;
    var cur, parent := 0, start;
    ghost var e := low + 1;
    StartClimb(s.own, s.links, s.ring, t, size, top, low, best, start);
    ClimbNode(s.own, s.links, s.ring, t, size, top, low, best, e, parent, cur);
    var right := s.GetLink(parent, Right);
    while right == 0 || right == cur
      invariant ClimbState(s.own, s.links, s.ring, t, size, top, low, best, e, parent, cur)
      invariant parent in s.own && Has(s.own[parent], Right) && Has(s.own[parent], Parent) && e <= top
      invariant right == Get(s.links, parent, Right)
      decreases top - e
    {
      ClimbedOne(s.own, s.links, s.ring, t, size, top, low, best, e, parent, cur);
      if parent == smallest {
        ClimbEndsAtBest(s.own, s.links, s.ring, t, size, top, low, best, e, parent, cur);
        return parent;
      }
      var up := s.GetLink(parent, Parent);
      if up == 0 {
        ClimbEndsAtRoot(s.own, s.links, s.ring, t, size, top, low, best, e, parent, cur);
        return 0;
      }
      ClimbStep(s.own, s.links, s.ring, t, size, top, low, best, e, parent, cur);
      e := e + 1;
      cur, parent := parent, up;
      ClimbNode(s.own, s.links, s.ring, t, size, top, low, best, e, parent, cur);
      right := s.GetLink(parent, Right);
    }
    ClimbEscapes(s.own, s.links, s.ring, t, size, top, low, best, e, parent, cur);
    r := GetSmallest(s, right, PathNode(size, e).Right());
  }

  lemma StartClimb(own: map<int, nat>, k: Links, ring: Rings, t: Shape, size: nat, top: int, low: int, best: int, start: int)
    requires ListsOK(own, k, ring, t) && 2 <= Shr(size, top) < 4
    requires Descended(t, size, top, low) && BestOnPath(t, size, top, low, best)
    requires start == HeadOf(ring, t, PathNode(size, low + 1))
    ensures ClimbState(own, k, ring, t, size, top, low, best, low + 1, start, 0)
  {
    hide ListsOK;
  }

  lemma BestIsHere(own: map<int, nat>, k: Links, ring: Rings, t: Shape, size: nat, top: int, low: int, best: int, e: int)
    requires ListsOK(own, k, ring, t) && BestOnPath(t, size, top, low, best) && PathNode(size, e) in t
    requires HeadOf(ring, t, PathNode(size, e)) == PathHead(ring, t, size, best)
    ensures best == e
  {
    NodeLinks(own, k, ring, t, PathNode(size, e));
    if best != -1 {
      SameHeadSameNode(own, k, ring, t, PathNode(size, e), PathNode(size, best));
    }
  }

  /** A path node below the top of its tree is no root. */
  lemma PathRoot(size: nat, top: int, e: int)
    requires 0 <= e <= top && 2 <= Shr(size, top) < 4
    ensures PathNode(size, e).IsRoot() <==> e == top
  {
    if e < top {
      ShrShr(size, e, top - e);
      if Shr(size, e) < 4 {
        ShrToOne(Shr(size, e), top - e);
      }
    }
  }

  lemma EscapeHead(own: map<int, nat>, k: Links, ring: Rings, t: Shape, n: Node, r: int)
    requires ListsOK(own, k, ring, t) && IsSmallest(ring, t, n, r)
    ensures r != 0 && r in own && forall m :: m in t && r == HeadOf(ring, t, m) ==> own[r] == t[m]
  {
    var b :| b in t && Below(n, b) && r == HeadOf(ring, t, b) && LeastUnder(t, n, t[b]);
    NodeLinks(own, k, ring, t, b);
    forall m | m in t && r == HeadOf(ring, t, m)
      ensures own[r] == t[m]
    {
      NodeLinks(own, k, ring, t, m);
    }
  }

  /**
   kmalloc_tree_get_best_fit.  The search is sound and complete, and finds an exact fit if there is one.
   It is the best fit exactly when the tree and the request are not as in Misses: there the climb leaves for
   a right subtree without looking at the smallest path node it remembers.
   */
  method GetBestFit(s: KmState, size: nat, index: nat, depth: nat) returns (r: int)
    requires Stored(s.mem, s.own, s.links, s.heapStart, s.heapStart + s.heapSize) && ListsOK(s.own, s.links, s.ring, s.shape) && TreeHeads(s.ring, s.shape, s.tbin)
    requires Large(size) && index == CalcTbin(size) && depth == TbinDepth(index) && index < NBINS
    ensures BestFitFound(s.own, s.ring, s.shape, Root(index), size, r)
    ensures MissExact(s.own, s.ring, s.shape, size, depth, r)
  {
    ghost var t := s.shape;
    assert s.tbin[index] == HeadOf(s.ring, t, Root(index));
    assert Root(index) == PathNode(size, depth) && Root(index).prefix >= 2 && Root(index).IsRoot() by {
      TbinPrefix(size);
    }
    var root := s.tbin[index];
    if root == 0 {
      EmptyTree(s.own, s.links, s.ring, t, Root(index));
      assert MissExact(s.own, s.ring, t, size, depth, 0) by {
        EmptyTreeMisses(s.own, s.links, s.ring, t, size, depth);
      }
      return 0;
    }
    ghost var low, best;
    var exact, parent, cur, smallest;
    exact, parent, cur, smallest, low, best := Descend(s, size, root, depth, index);
    assert ShapeOK(t) by {
      ListsShape(s.own, s.links, s.ring, t);
    }
    if exact != 0 {
      NodeLinks(s.own, s.links, s.ring, t, PathNode(size, low));
      FoundExact(s.own, s.ring, t, size, depth, low, exact);
      ExactNoMiss(t, size, depth, low);
      NoMissFound(s.own, s.ring, t, size, depth, exact);
      return exact;
    }
    r := Climb(s, size, depth, parent, smallest, low, best);
  }

  /** No chunk but the root's is in the tree. */
  ghost predicate OnlyRoot(t: Shape, root: Node) {
    forall n :: n in t && Below(root, n) ==> n == root
  }

  lemma OnlyRootLinks(own: map<int, nat>, k: Links, ring: Rings, t: Shape, root: Node)
    requires ListsOK(own, k, ring, t) && OnlyRoot(t, root) && root.IsRoot()
    ensures HeadOf(ring, t, root) != 0 ==>
              var h := HeadOf(ring, t, root);
              && root in t && h in own && MIN_LARGE <= own[h] < SIZE_LIMIT
              && Get(k, h, Left) == Get(k, h, Right) == Get(k, h, Parent) == 0
  {
    if HeadOf(ring, t, root) != 0 {
      OccupiedHead(ring, t, root);
      NodeLinks(own, k, ring, t, root);
      ListsShape(own, k, ring, t);
      SelfBelow(root);
      BelowChild(root, root);
      hide ListsOK;
    }
  }

  /** The same statements for a size no chunk of the tree has, which may not even begin with the bits of bin 31.  In a heap
      of 16 megabytes there is at most one chunk in that bin, and the walk ends there. */
  method SearchBeyond(s: KmState, size: nat, index: nat, depth: nat) returns (r: int)
    requires Stored(s.mem, s.own, s.links, s.heapStart, s.heapStart + s.heapSize) && ListsOK(s.own, s.links, s.ring, s.shape) && TreeHeads(s.ring, s.shape, s.tbin)
    requires size >= SIZE_LIMIT && index < NBINS && depth == TbinDepth(index) && OnlyRoot(s.shape, Root(index))
    ensures r == 0
  {
    hide ListsOK, Stored, OnlyRoot;
    assert s.tbin[index] == HeadOf(s.ring, s.shape, Root(index));
    OnlyRootLinks(s.own, s.links, s.ring, s.shape, Root(index));
    var root := s.tbin[index];
    if root == 0 {
      return 0;
    }
    LargeHas(s.own[root]);
    var cur, parent, smallest, smallestSize, d: int := root, 0, 0, 0, depth;
    while cur != 0
      invariant smallest == 0 && if cur == 0 then parent == root else cur == root && d == depth
      decreases cur != 0
    {
      var curSize := s.GetSize(cur);
      if size == curSize {
        return cur;
      }
      if curSize > size && (smallest == 0 || curSize < smallestSize) {
        smallest, smallestSize := cur, curSize;
      }
      parent := cur;
      if Bit(size, d - 1) {
        cur := s.GetLink(cur, Right);
      } else {
        cur := s.GetLink(cur, Left);
      }
      d := d - 1;
    }
    var right := s.GetLink(parent, Right);
    if right == 0 || right == cur { // the climb's first test is its last
      if parent == smallest {
        return parent;
      }
      if s.GetLink(parent, Parent) == 0 {
        return 0;
      }
    }
    assert false;
  }

  lemma EmptyTree(own: map<int, nat>, k: Links, ring: Rings, t: Shape, root: Node)
    requires ListsOK(own, k, ring, t) && HeadOf(ring, t, root) == 0 && root.prefix >= 2
    ensures forall q :: q in t ==> !Below(root, q)
  {
    forall q | q in t && Below(root, q)
      ensures false
    {
      AncestorIn(t, root, q);
      NodeLinks(own, k, ring, t, root);
    }
  }

  lemma EmptyTreeMisses(own: map<int, nat>, k: Links, ring: Rings, t: Shape, size: nat, top: nat)
    requires ListsOK(own, k, ring, t) && HeadOf(ring, t, PathNode(size, top)) == 0 && Shr(size, top) >= 2
    ensures MissExact(own, ring, t, size, top, 0)
  {
    EmptyTree(own, k, ring, t, PathNode(size, top));
    ListsShape(own, k, ring, t);
    hide ListsOK;
    forall e | e <= top && PathNode(size, e) in t
      ensures false
    {
      PathBelowTop(t, size, top, e);
    }
    NoMissFound(own, ring, t, size, top, 0);
    hide IsSmallest;
  }

  lemma NotEscape(t: Shape, size: nat, e: int, low: int)
    requires Climbed(t, size, low, e)
    requires PathNode(size, e).Right() !in t || PathNode(size, e).Right() == PathNode(size, e - 1)
    ensures Climbed(t, size, low, e + 1)
  {
  }

  lemma IsEscape(t: Shape, size: nat, e: int)
    requires e > 0 && PathNode(size, e) in t && PathNode(size, e).Right() in t
    requires PathNode(size, e).Right() != PathNode(size, e - 1)
    ensures Escapes(t, size, e)
  {
    PathStep(size, e);
  }

  /** The heads of two occupied nodes are the same only if the nodes are. */
  lemma SameHeadSameNode(own: map<int, nat>, k: Links, ring: Rings, t: Shape, n: Node, m: Node)
    requires ListsOK(own, k, ring, t) && n in t && HeadOf(ring, t, n) == HeadOf(ring, t, m)
    ensures n == m
  {
    HeadFacts(own, k, ring, t);
  }

  /** A tree with sizes 0x120 at the root and 0x160 to its right. */
  function TwoSizes(): Shape {
    map[Node(7, 2) := 0x120, Node(6, 5) := 0x160]
  }

  lemma TwoSizesPath()
    ensures PathNode(0x110, 7) == Node(7, 2) && PathNode(0x110, 6) == Node(6, 4)
    ensures forall d :: d < 7 ==> PathNode(0x110, d) !in TwoSizes()
    ensures Shr(0x120, 7) == 2 && Shr(0x160, 6) == 5
  {
    assert Shr(0x120, 4) == 0x12 && Shr(0x160, 4) == 0x16 && Shr(0x110, 4) == 0x11;
    assert Shr(0x110, 6) == 4 && Shr(0x110, 7) == 2;
    forall d | d < 7
      ensures PathNode(0x110, d) !in TwoSizes()
    {
      assert d == 6 ==> PathNode(0x110, d) == Node(6, 4);
    }
    hide Shr;
  }

  lemma TwoSizesShape()
    ensures ShapeOK(TwoSizes())
  {
    var t := TwoSizes();
    TwoSizesPath();
    hide Shr, PathNode;
    assert Node(6, 5).Parent() == Node(7, 2);
    assert forall n :: n in t ==> n == Node(7, 2) || n == Node(6, 5);
  }

  lemma TwoSizesMiss()
    ensures MissesAt(TwoSizes(), 0x110, 7, 7, 7) && Misses(TwoSizes(), 0x110, 7)
  {
    hide Shr, PathNode;
    var t := TwoSizes();
    TwoSizesPath();
    assert Node(7, 2).Left() == Node(6, 4) && Node(7, 2).Right() == Node(6, 5);
    assert forall n :: n in t ==> n == Node(7, 2) || n == Node(6, 5);
    assert !Below(Node(6, 5), Node(7, 2));
    assert MissesAt(t, 0x110, 7, 7, 7);
  }

  /** In that tree a request for 0x110 gets a chunk of 0x160, although one of 0x120 is there. */
  lemma BestFitCanMiss(own: map<int, nat>, ring: Rings, r: int)
    requires BestFitFound(own, ring, TwoSizes(), PathNode(0x110, 7), 0x110, r) && MissExact(own, ring, TwoSizes(), 0x110, 7, r)
    ensures r in own && own[r] == 0x160 && TwoSizes()[PathNode(0x110, 7)] == 0x120
    ensures ShapeOK(TwoSizes())
  {
    hide Shr, PathNode, MissesAt, Misses, IsSmallest, ShapeOK;
    var t := TwoSizes();
    TwoSizesShape();
    TwoSizesMiss();
    TwoSizesPath();
    assert forall n :: n in t ==> n == Node(7, 2) || n == Node(6, 5);
    SelfBelow(Node(7, 2));
    assert t[Node(7, 2)] == 0x120 && t[Node(6, 5)] == 0x160;
    assert SomeFits(t, Node(7, 2), 0x110);
    assert LeastFit(t, Node(7, 2), 0x110, 0x120);
  }
}
