/**
 The shape of the tree bins.  A node stands for the sizes that share a bit prefix: the sizes s
 with s >> depth == prefix.  All 32 tree bins are subtrees of one binary tree; the root of bin i is
 the node at depth TBIN_DEPTH(i) whose prefix is the two leading bits of the bin's sizes.
 */
module Trie {
  import opened Bits
  import opened BinIndex

  datatype Node = Node(depth: int, prefix: nat) {
    function Left(): Node { Node(depth - 1, 2 * prefix) }
    function Right(): Node { Node(depth - 1, 2 * prefix + 1) }
    function Parent(): Node { Node(depth + 1, prefix / 2) }
    predicate IsRoot() { prefix < 4 }
  }

  /** The size held by each occupied node. */
  type Shape = map<Node, nat>

  function Root(index: nat): Node {
    Node(TbinDepth(index), 2 + index % 2)
  }

  predicate Large(s: nat) {
    MIN_LARGE <= s < SIZE_LIMIT && s % 8 == 0
  }

  /** Size s may be stored at or below n. */
  predicate Holds(n: Node, s: nat) {
    Shr(s, n.depth) == n.prefix
  }

  /** The node at depth d on the search path of size s. */
  function PathNode(s: nat, d: int): Node {
    Node(d, Shr(s, d))
  }

  predicate IsLeaf(t: Shape, n: Node) {
    n.Left() !in t && n.Right() !in t
  }

  ghost predicate ShapeOK(t: Shape) {
    && (forall n :: n in t ==> n.depth >= 0 && n.prefix >= 2 && Large(t[n]) && Holds(n, t[n]))
    && (forall n {:trigger n.Parent()} :: n in t && !n.IsRoot() ==> n.Parent() in t)
    && (forall n, m :: n in t && m in t && t[n] == t[m] ==> n == m)
  }

  /** m is n or lies in the subtree under n. */
  predicate Below(n: Node, m: Node) {
    m.depth <= n.depth && Shr(m.prefix, n.depth - m.depth) == n.prefix
  }

  lemma SelfBelow(n: Node)
    ensures Below(n, n)
  {
  }

  lemma BelowHolds(n: Node, m: Node, s: nat)
    requires Below(n, m) && Holds(m, s) && m.depth >= 0
    ensures Holds(n, s)
  {
    ShrShr(s, m.depth, n.depth - m.depth);
  }

  lemma HoldsBelow(n: Node, m: Node, s: nat)
    requires Holds(n, s) && Holds(m, s) && 0 <= m.depth <= n.depth
    ensures Below(n, m)
  {
    ShrShr(s, m.depth, n.depth - m.depth);
  }

  lemma BelowChild(n: Node, m: Node)
    requires Below(n, m)
    ensures Below(n, m.Left()) && Below(n, m.Right())
  {
    ShrHalf(m.Left().prefix, n.depth - m.Left().depth);
    ShrHalf(m.Right().prefix, n.depth - m.Right().depth);
  }

  lemma BelowSplit(n: Node, m: Node)
    requires Below(n, m) && m != n
    ensures m.depth < n.depth
    ensures Below(n.Left(), m) || Below(n.Right(), m)
  {
  }

  /** Occupied nodes reach up to their root without a gap. */
  lemma {:induction false} AncestorIn(t: Shape, n: Node, m: Node)
    requires ShapeOK(t) && m in t && Below(n, m) && n.prefix >= 2
    ensures n in t
    decreases n.depth - m.depth
  {
    if n != m {
      BelowSplit(n, m);
      var child := if Below(n.Left(), m) then n.Left() else n.Right();
      AncestorIn(t, child, m);
      assert child.Parent() == n;
    }
  }

  /** Everything in the left subtree is smaller than everything in the right one. */
  lemma LeftBeforeRight(n: Node, x: nat, y: nat)
    requires Holds(n.Left(), x) && Holds(n.Right(), y)
    ensures x < y
  {
    if y <= x {
      ShrMonotone(y, x, n.depth - 1);
    }
  }

  lemma LargePrefix(s: nat, d: int)
    requires Large(s) && d <= 3
    ensures Shr(s, d) >= 4
  {
    assert Shr(s, 3) == s / 8;
    assert Shr(s, 2) == s / 4;
    assert Shr(s, 1) == s / 2;
  }

  lemma SharedEighth(x: nat, y: nat)
    requires x % 8 == y % 8 == 0 && Shr(x, 3) == Shr(y, 3)
    ensures x == y
  {
    assert Shr(x, 3) == x / 8 && Shr(y, 3) == y / 8;
  }

  /** A node never gets below depth 3, so the count of levels left that the tree walks carry along never runs out. */
  lemma {:induction false} DepthBound(t: Shape, n: Node)
    requires ShapeOK(t) && n in t
    ensures n.depth >= 3
    decreases 3 - n.depth
  {
    if n.depth < 3 {
      LargePrefix(t[n], n.depth);
      var p := n.Parent();
      assert p in t;
      if n.depth < 2 {
        DepthBound(t, p);
      } else {
        SharedEighth(t[n], t[p]);
      }
    }
  }

  /** A size that is not stored has a vacant node on its path no deeper than depth 3. */
  lemma PathNodeFree(t: Shape, s: nat, d: int)
    requires ShapeOK(t) && Large(s) && d <= 3 && PathNode(s, d) in t
    ensures d == 3 && t[PathNode(s, d)] == s
  {
    var n := PathNode(s, d);
    DepthBound(t, n);
    assert Shr(t[n], 3) == t[n] / 8 && Shr(s, 3) == s / 8;
  }

  lemma Occupied(t: Shape, n: Node)
    requires ShapeOK(t) && n in t
    ensures n.depth >= 3 && n.prefix >= 2 && Holds(n, t[n]) && Large(t[n])
    ensures n.IsRoot() || n.Parent() in t
  {
    DepthBound(t, n);
  }

  lemma InsertKeepsShape(t: Shape, n: Node, s: nat)
    requires ShapeOK(t) && Large(s) && s !in t.Values
    requires n !in t && n.depth >= 0 && n.prefix >= 2 && Holds(n, s)
    requires n.IsRoot() || n.Parent() in t
    ensures ShapeOK(t[n := s])
  {
    var u := t[n := s];
    assert forall k :: k in t ==> t[k] in t.Values;
    assert forall k :: k in u ==> k == n || (k in t && u[k] == t[k]);
  }

  lemma RemoveLeafKeepsShape(t: Shape, n: Node)
    requires ShapeOK(t) && n in t && IsLeaf(t, n)
    ensures ShapeOK(t - {n})
  {
    forall k | k in t - {n} && !k.IsRoot()
      ensures k.Parent() in t - {n}
    {
      ParentOfChild(k);
    }
  }

  lemma ParentOfChild(k: Node)
    ensures k.Parent().Left() == k || k.Parent().Right() == k
  {
  }

  /** Moving a leaf of the subtree under n up to n keeps the trie order. */
  lemma ReplaceKeepsShape(t: Shape, n: Node, leaf: Node)
    requires ShapeOK(t) && n in t && leaf in t && leaf != n && IsLeaf(t, leaf) && Below(n, leaf)
    ensures ShapeOK(t[n := t[leaf]] - {leaf})
  {
    BelowHolds(n, leaf, t[leaf]);
    var u := t[n := t[leaf]] - {leaf};
    forall k | k in u && !k.IsRoot()
      ensures k.Parent() in u
    {
      ParentOfChild(k);
    }
  }

  /** The path of req turns left at depth e although a right child exists: that whole subtree fits. */
  predicate Escapes(t: Shape, req: nat, e: int) {
    && PathNode(req, e) in t
    && PathNode(req, e - 1) == PathNode(req, e).Left()
    && PathNode(req, e).Right() in t
  }

  predicate EscapesTo(t: Shape, req: nat, e: int, m: Node) {
    Escapes(t, req, e) && Below(PathNode(req, e).Right(), m)
  }

  /** A fitting size other than the request is on the request's path, or in a subtree the path escapes from. */
  lemma {:induction false} FitIsReachable(t: Shape, req: nat, d: int, m: Node)
    requires ShapeOK(t) && m in t && t[m] > req
    requires Below(PathNode(req, d), m) && Shr(req, d) >= 2
    ensures m == PathNode(req, m.depth) || exists e :: m.depth < e <= d && EscapesTo(t, req, e, m)
    decreases d - m.depth
  {
    var n := PathNode(req, d);
    if m != n {
      BelowSplit(n, m);
      AncestorIn(t, n, m);
      var child := if Below(n.Left(), m) then n.Left() else n.Right();
      AncestorIn(t, child, m);
      BelowHolds(child, m, t[m]);
      if child == PathNode(req, d - 1) {
        FitIsReachable(t, req, d - 1, m);
      } else {
        if child == n.Left() {
          LeftBeforeRight(n, t[m], req);
          assert false;
        }
        assert EscapesTo(t, req, d, m);
      }
    }
  }

  lemma EscapeFits(t: Shape, req: nat, e: int, m: Node)
    requires ShapeOK(t) && EscapesTo(t, req, e, m) && m in t
    ensures t[m] > req
  {
    BelowHolds(PathNode(req, e).Right(), m, t[m]);
    LeftBeforeRight(PathNode(req, e), req, t[m]);
  }

  /** Sizes under a path node are smaller than those the path escapes to higher up. */
  lemma EscapeAbove(t: Shape, req: nat, e: int, m: Node, f: int, q: Node)
    requires ShapeOK(t) && m in t && q in t && 0 <= e < f
    requires Holds(PathNode(req, e), t[m]) && EscapesTo(t, req, f, q)
    ensures t[m] < t[q]
  {
    ShrShr(t[m], e, f - 1 - e);
    ShrShr(req, e, f - 1 - e);
    BelowHolds(PathNode(req, f).Right(), q, t[q]);
    LeftBeforeRight(PathNode(req, f), t[m], t[q]);
  }
}
