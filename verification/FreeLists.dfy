/**
 The free lists: one ring of chunks for each size on them, and a trie over the large sizes.
 This module is about the links; HeapState says where in memory they are kept.
 */
module FreeLists {
  import opened Bits
  import opened BinIndex
  import opened Trie
  import opened Sequences

  datatype Field = Next | Prev | Left | Right | Parent

  /** The link stored in a field of a binned chunk. */
  type Links = map<(int, Field), int>

  function Get(k: Links, x: int, f: Field): int {
    if (x, f) in k then k[(x, f)] else 0
  }

  function Put(k: Links, x: int, f: Field, v: int): Links {
    k[(x, f) := v]
  }

  // ----- rings

  /** The chunks of each size that are on a free list, head first. */
  type Rings = map<nat, seq<int>>

  function After(xs: seq<int>, j: int): int
    requires 0 <= j < |xs|
  {
    if j + 1 < |xs| then xs[j + 1] else xs[0]
  }

  function Before(xs: seq<int>, j: int): int
    requires 0 <= j < |xs|
  {
    if j > 0 then xs[j - 1] else xs[|xs| - 1]
  }

  ghost predicate LinkedAt(k: Links, xs: seq<int>, j: int)
    requires 0 <= j < |xs|
  {
    Get(k, xs[j], Next) == After(xs, j) && Get(k, xs[j], Prev) == Before(xs, j)
  }

  /** xs is a circular doubly linked list. */
  ghost predicate RingAt(k: Links, xs: seq<int>) {
    && |xs| > 0
    && NoDup(xs)
    && (forall j :: 0 <= j < |xs| ==> LinkedAt(k, xs, j))
  }

  /** c is linked in between last and head. */
  function LinkBetween(k: Links, c: int, last: int, head: int): Links {
    Put(Put(Put(Put(k, c, Next, head), c, Prev, last), last, Next, c), head, Prev, c)
  }

  function LinkAlone(k: Links, c: int): Links {
    Put(Put(k, c, Next, c), c, Prev, c)
  }

  /** The chunk between prev and next is left out. */
  function Bypass(k: Links, prev: int, next: int): Links {
    Put(Put(k, prev, Next, next), next, Prev, prev)
  }

  function DropAt(xs: seq<int>, i: int): seq<int>
    requires 0 <= i < |xs|
  {
    xs[..i] + xs[i + 1..]
  }

  function DropRing(ring: Rings, s: nat, i: int): Rings
    requires s in ring && 0 <= i < |ring[s]|
  {
    if |ring[s]| > 1 then ring[s := DropAt(ring[s], i)] else ring - {s}
  }

  lemma RingGrowsAtFront(k: Links, xs: seq<int>, c: int)
    requires RingAt(k, xs) && c !in xs
    ensures RingAt(LinkBetween(k, c, xs[|xs| - 1], xs[0]), [c] + xs)
  {
    var ys, k' := [c] + xs, LinkBetween(k, c, xs[|xs| - 1], xs[0]);
    forall j | 0 <= j < |ys|
      ensures LinkedAt(k', ys, j)
    {
      if j > 0 {
        assert LinkedAt(k, xs, j - 1);
      }
    }
  }

  lemma RingGrowsAtEnd(k: Links, xs: seq<int>, c: int)
    requires RingAt(k, xs) && c !in xs
    ensures RingAt(LinkBetween(k, c, xs[|xs| - 1], xs[0]), xs + [c])
  {
    var ys, k' := xs + [c], LinkBetween(k, c, xs[|xs| - 1], xs[0]);
    forall j | 0 <= j < |ys|
      ensures LinkedAt(k', ys, j)
    {
      if j < |xs| {
        assert LinkedAt(k, xs, j);
      }
    }
  }

  /** Leaving element i out of a ring of two or more gives the ring of the others, in order. */
  lemma RingShrinks(k: Links, xs: seq<int>, i: int)
    requires RingAt(k, xs) && 0 <= i < |xs| && |xs| > 1
    ensures RingAt(Bypass(k, Before(xs, i), After(xs, i)), DropAt(xs, i))
  {
    var ys, k' := DropAt(xs, i), Bypass(k, Before(xs, i), After(xs, i));
    forall j | 0 <= j < |ys|
      ensures LinkedAt(k', ys, j)
    {
      assert LinkedAt(k, xs, if j < i then j else j + 1);
    }
  }

  // ----- the invariant

  /** The rings hold exactly the binned chunks (each with its size in own), sorted by size. */
  ghost predicate Members(own: map<int, nat>, ring: Rings) {
    && (forall s, j :: s in ring && 0 <= j < |ring[s]| ==> ring[s][j] in own && own[ring[s][j]] == s)
    && (forall x :: x in own ==> own[x] in ring && x in ring[own[x]])
    && (forall x :: x in own ==> x > 0)
  }

  ghost predicate RingsAt(k: Links, ring: Rings) {
    forall s :: s in ring ==> RingAt(k, ring[s])
  }

  /** First chunk of the ring held by node n, or NULL. */
  function HeadOf(ring: Rings, t: Shape, n: Node): int {
    if n in t && t[n] in ring && |ring[t[n]]| > 0 then ring[t[n]][0] else 0
  }

  /** The trie holds exactly the large sizes. */
  ghost predicate Sized(ring: Rings, t: Shape) {
    && (forall n :: n in t ==> t[n] in ring)
    && (forall s :: s in ring && s >= MIN_LARGE ==> s in t.Values)
  }

  ghost predicate NodeAt(k: Links, ring: Rings, t: Shape, n: Node) {
    var h := HeadOf(ring, t, n);
    && Get(k, h, Left) == HeadOf(ring, t, n.Left())
    && Get(k, h, Right) == HeadOf(ring, t, n.Right())
    && Get(k, h, Parent) == if n.IsRoot() then 0 else HeadOf(ring, t, n.Parent())
  }

  /** The tree links of the ring heads mirror the trie. */
  ghost predicate TreeAt(k: Links, ring: Rings, t: Shape) {
    forall n {:trigger NodeAt(k, ring, t, n)} :: n in t ==> NodeAt(k, ring, t, n)
  }

  ghost predicate Unlinked(k: Links, x: int) {
    Get(k, x, Left) == 0 && Get(k, x, Right) == 0 && Get(k, x, Parent) == 0
  }

  /** Chunks behind the head of a tree ring carry no tree links. */
  ghost predicate FollowersAt(k: Links, ring: Rings) {
    forall s, j :: s in ring && s >= MIN_LARGE && 0 < j < |ring[s]| ==> Unlinked(k, ring[s][j])
  }

  /** The rings and the trie hold exactly the chunks of own, and the links are theirs. */
  ghost predicate ListsOK(own: map<int, nat>, k: Links, ring: Rings, t: Shape) {
    && Members(own, ring)
    && RingsAt(k, ring)
    && ShapeOK(t)
    && Sized(ring, t)
    && TreeAt(k, ring, t)
    && FollowersAt(k, ring)
  }

  /** The small bins start at their rings' heads. */
  ghost predicate SmallHeads(ring: Rings, sbin: seq<int>) {
    && |sbin| == NBINS
    && (forall i :: 0 <= i < NBINS ==> sbin[i] == if 8 * i in ring && |ring[8 * i]| > 0 then ring[8 * i][0] else 0)
  }

  /** The tree bins start at their roots' heads. */
  ghost predicate TreeHeads(ring: Rings, t: Shape, tbin: seq<int>) {
    && |tbin| == NBINS
    && (forall i :: 0 <= i < NBINS ==> tbin[i] == HeadOf(ring, t, Root(i)))
  }

  /** A bitmap has a bit for each bin that is not empty. */
  ghost predicate MapMatches(bins: seq<int>, bitmap: nat) {
    && |bins| == NBINS
    && (forall i :: 0 <= i < NBINS ==> Bit(bitmap, i) == (bins[i] != 0))
    && (forall i :: i >= NBINS ==> !Bit(bitmap, i))
  }

  ghost predicate HeadsOK(ring: Rings, t: Shape, sbin: seq<int>, tbin: seq<int>, sbinmap: nat, tbinmap: nat) {
    && SmallHeads(ring, sbin)
    && TreeHeads(ring, t, tbin)
    && MapMatches(sbin, sbinmap)
    && MapMatches(tbin, tbinmap)
  }

  // ----- pushing and dropping on a ring that keeps its head's tree links

  /** A chunk goes in front of a small ring, or starts one. */
  lemma PushSmall(own: map<int, nat>, k: Links, ring: Rings, t: Shape, x: int, s: nat)
    requires ListsOK(own, k, ring, t) && x !in own && x > 0 && s < MIN_LARGE
    ensures var k' := if s in ring then LinkBetween(k, x, ring[s][|ring[s]| - 1], ring[s][0]) else LinkAlone(k, x);
            ListsOK(own[x := s], k', ring[s := [x] + if s in ring then ring[s] else []], t)
  {
    var xs := if s in ring then ring[s] else [];
    var k' := if s in ring then LinkBetween(k, x, ring[s][|ring[s]| - 1], ring[s][0]) else LinkAlone(k, x);
    var ring' := ring[s := [x] + xs];
    if s in ring {
      RingGrowsAtFront(k, xs, x);
    }
    OtherRings(own, k, ring, k', x, s);
    assert Members(own[x := s], ring') by { PushMembers(own, ring, x, s, true); }
    SameTree(own, k, ring, t, k', ring', s);
  }

  lemma PushMembers(own: map<int, nat>, ring: Rings, x: int, s: nat, front: bool)
    requires Members(own, ring) && x !in own && x > 0
    ensures var xs := if s in ring then ring[s] else [];
            Members(own[x := s], ring[s := if front then [x] + xs else xs + [x]])
  {
    var xs := if s in ring then ring[s] else [];
    var ys := if front then [x] + xs else xs + [x];
    var own', ring' := own[x := s], ring[s := ys];
    assert forall y :: y in ys <==> y == x || y in xs;
  }

  /** Relinking inside the ring of size s and chunk x leaves the other rings alone. */
  lemma OtherRings(own: map<int, nat>, k: Links, ring: Rings, k': Links, x: int, s: nat)
    requires Members(own, ring) && RingsAt(k, ring)
    requires x in own ==> own[x] == s
    requires forall y, f :: Get(k', y, f) != Get(k, y, f) ==> y == x || (y in own && own[y] == s)
    ensures forall r :: r in ring && r != s ==> RingAt(k', ring[r])
  {
    forall r | r in ring && r != s
      ensures RingAt(k', ring[r])
    {
      assert RingAt(k, ring[r]);
      forall j | 0 <= j < |ring[r]|
        ensures LinkedAt(k', ring[r], j)
      {
        assert LinkedAt(k, ring[r], j);
        assert ring[r][j] in own && own[ring[r][j]] == r;
      }
    }
  }

  /** A small ring may change without touching the tree. */
  lemma SameTree(own: map<int, nat>, k: Links, ring: Rings, t: Shape, k': Links, ring': Rings, s: nat)
    requires ListsOK(own, k, ring, t) && s < MIN_LARGE
    requires forall r :: r != s ==> (r in ring <==> r in ring') && (r in ring ==> ring'[r] == ring[r])
    requires forall y, f :: Get(k', y, f) != Get(k, y, f) ==> f == Next || f == Prev
    ensures Sized(ring', t) && TreeAt(k', ring', t) && FollowersAt(k', ring')
  {
    forall n | n in t
      ensures NodeAt(k', ring', t, n)
    {
      assert NodeAt(k, ring, t, n);
      assert Large(t[n]);
    }
    forall r, j | r in ring' && r >= MIN_LARGE && 0 < j < |ring'[r]|
      ensures Unlinked(k', ring'[r][j])
    {
      assert Unlinked(k, ring[r][j]);
    }
  }

  /** Rings may change behind their heads, and ring links may change, without touching the tree. */
  lemma TreeKept(k: Links, ring: Rings, t: Shape, k': Links, ring': Rings)
    requires TreeAt(k, ring, t)
    requires forall q :: HeadOf(ring', t, q) == HeadOf(ring, t, q)
    requires forall n, f :: n in t && f != Next && f != Prev ==>
               Get(k', HeadOf(ring, t, n), f) == Get(k, HeadOf(ring, t, n), f)
    ensures TreeAt(k', ring', t)
  {
    forall n | n in t
      ensures NodeAt(k', ring', t, n)
    {
      assert NodeAt(k, ring, t, n);
    }
  }

  // ----- inserting into the tree

  /** A chunk that enters the tree starts as a ring of its own without tree links. */
  function Fresh(k: Links, x: int): Links {
    Put(Put(LinkAlone(k, x), x, Left, 0), x, Right, 0)
  }

  function AppendLinks(k: Links, x: int, xs: seq<int>): Links
    requires |xs| > 0
  {
    LinkBetween(Put(Fresh(k, x), x, Parent, 0), x, xs[|xs| - 1], xs[0])
  }

  /** A chunk of a size the tree already holds goes to the end of that ring. */
  lemma AppendLarge(own: map<int, nat>, k: Links, ring: Rings, t: Shape, x: int, s: nat)
    requires ListsOK(own, k, ring, t) && x !in own && x > 0 && s >= MIN_LARGE && s in ring
    ensures |ring[s]| > 0
    ensures ListsOK(own[x := s], AppendLinks(k, x, ring[s]), ring[s := ring[s] + [x]], t)
  {
    PushMembers(own, ring, x, s, false);
    assert RingAt(k, ring[s]);
    AppendRings(own, k, ring, x, s);
    AppendTree(own, k, ring, t, x, s);
    AppendFollowers(own, k, ring, x, s);
    hide RingsAt, TreeAt, FollowersAt, Members, AppendLinks;
  }

  lemma AppendRings(own: map<int, nat>, k: Links, ring: Rings, x: int, s: nat)
    requires Members(own, ring) && RingsAt(k, ring) && x !in own && s in ring && |ring[s]| > 0
    ensures RingsAt(AppendLinks(k, x, ring[s]), ring[s := ring[s] + [x]])
  {
    var xs := ring[s];
    var k1 := Put(Fresh(k, x), x, Parent, 0);
    assert RingAt(k, xs);
    RingUntouched(k, xs, k1, x);
    RingGrowsAtEnd(k1, xs, x);
    OtherRings(own, k, ring, AppendLinks(k, x, xs), x, s);
  }

  lemma AppendTree(own: map<int, nat>, k: Links, ring: Rings, t: Shape, x: int, s: nat)
    requires Members(own, ring) && Sized(ring, t) && TreeAt(k, ring, t) && x !in own && s in ring && |ring[s]| > 0
    requires forall r :: r in ring ==> |ring[r]| > 0
    ensures TreeAt(AppendLinks(k, x, ring[s]), ring[s := ring[s] + [x]], t)
  {
    assert forall n :: n in t ==> HeadOf(ring, t, n) in own;
    TreeKept(k, ring, t, AppendLinks(k, x, ring[s]), ring[s := ring[s] + [x]]);
  }

  lemma AppendFollowers(own: map<int, nat>, k: Links, ring: Rings, x: int, s: nat)
    requires Members(own, ring) && FollowersAt(k, ring) && x !in own && s in ring && |ring[s]| > 0
    ensures FollowersAt(AppendLinks(k, x, ring[s]), ring[s := ring[s] + [x]])
  {
    var k', ring' := AppendLinks(k, x, ring[s]), ring[s := ring[s] + [x]];
    forall r, j | r in ring' && r >= MIN_LARGE && 0 < j < |ring'[r]|
      ensures Unlinked(k', ring'[r][j])
    {
      if r != s || j < |ring[s]| {
        assert Unlinked(k, ring[r][j]);
        assert ring[r][j] in own;
      }
    }
  }

  lemma RingUntouched(k: Links, xs: seq<int>, k': Links, x: int)
    requires RingAt(k, xs) && x !in xs
    requires forall y, f :: y != x ==> Get(k', y, f) == Get(k, y, f)
    ensures RingAt(k', xs)
  {
    forall j | 0 <= j < |xs|
      ensures LinkedAt(k', xs, j)
    {
      assert LinkedAt(k, xs, j);
    }
  }

  /** Where a new node hangs: its parent's link now points at x. */
  function Attach(k: Links, x: int, n: Node, p: int): Links {
    var k1 := Put(Fresh(k, x), x, Parent, p);
    if n.IsRoot() then k1
    else if n == n.Parent().Right() then Put(k1, p, Right, x)
    else Put(k1, p, Left, x)
  }

  /** Different occupied nodes have different heads. */
  lemma HeadsDiffer(own: map<int, nat>, ring: Rings, t: Shape, n: Node, m: Node)
    requires Members(own, ring) && ShapeOK(t) && Sized(ring, t) && (forall s :: s in ring ==> |ring[s]| > 0)
    requires n in t
    ensures HeadOf(ring, t, n) > 0 && HeadOf(ring, t, n) in own && own[HeadOf(ring, t, n)] == t[n]
    ensures HeadOf(ring, t, n) == HeadOf(ring, t, m) ==> n == m
  {
    assert t[n] in ring;
    assert ring[t[n]][0] in own;
    if m in t {
      assert t[m] in ring;
      assert ring[t[m]][0] in own && own[ring[t[m]][0]] == t[m];
    }
  }

  /** A chunk of a new size takes the vacant node its search path ends at. */
  lemma AttachLarge(own: map<int, nat>, k: Links, ring: Rings, t: Shape, x: int, s: nat, n: Node)
    requires ListsOK(own, k, ring, t) && x !in own && x > 0 && Large(s) && s !in ring
    requires n !in t && n.depth >= 0 && n.prefix >= 2 && Holds(n, s)
    requires n.IsRoot() || n.Parent() in t
    ensures var p := if n.IsRoot() then 0 else HeadOf(ring, t, n.Parent());
            ListsOK(own[x := s], Attach(k, x, n, p), ring[s := [x]], t[n := s])
  {
    PushMembers(own, ring, x, s, true);
    assert s !in t.Values;
    InsertKeepsShape(t, n, s);
    AttachRings(own, k, ring, x, s, n, if n.IsRoot() then 0 else HeadOf(ring, t, n.Parent()));
    AttachSized(ring, t, x, s, n);
    assert forall r :: r in ring ==> |ring[r]| > 0;
    AttachTree(own, k, ring, t, x, s, n);
    AttachFollowers(own, k, ring, t, x, s, n);
    assert [x] + [] == [x];
    hide ShapeOK, RingsAt, TreeAt, FollowersAt, Members, Attach, Sized;
  }

  lemma AttachRings(own: map<int, nat>, k: Links, ring: Rings, x: int, s: nat, n: Node, p: int)
    requires Members(own, ring) && RingsAt(k, ring) && x !in own
    ensures RingsAt(Attach(k, x, n, p), ring[s := [x]])
  {
    var k' := Attach(k, x, n, p);
    TreeLinksOnly(own, k, ring, k', x);
    assert LinkedAt(k', [x], 0);
  }

  lemma AttachFollowers(own: map<int, nat>, k: Links, ring: Rings, t: Shape, x: int, s: nat, n: Node)
    requires Members(own, ring) && RingsAt(k, ring) && FollowersAt(k, ring) && Sized(ring, t) && x !in own
    requires n.IsRoot() || n.Parent() in t
    ensures var p := if n.IsRoot() then 0 else HeadOf(ring, t, n.Parent());
            FollowersAt(Attach(k, x, n, p), ring[s := [x]])
  {
    var p := if n.IsRoot() then 0 else HeadOf(ring, t, n.Parent());
    var k', ring' := Attach(k, x, n, p), ring[s := [x]];
    forall r, j | r in ring' && r >= MIN_LARGE && 0 < j < |ring'[r]|
      ensures Unlinked(k', ring'[r][j])
    {
      assert Unlinked(k, ring[r][j]);
      assert ring[r][j] in own && own[ring[r][j]] == r;
      assert RingAt(k, ring[r]);
      if !n.IsRoot() {
        NotHead(own, k, ring, t, n.Parent(), r, j);
      }
    }
  }

  lemma NotHead(own: map<int, nat>, k: Links, ring: Rings, t: Shape, n: Node, r: nat, j: int)
    requires Members(own, ring) && RingsAt(k, ring) && Sized(ring, t)
    requires n in t && r in ring && 0 < j < |ring[r]|
    ensures ring[r][j] != HeadOf(ring, t, n)
  {
    assert RingAt(k, ring[r]) && RingAt(k, ring[t[n]]);
    assert own[ring[r][j]] == r && own[ring[t[n]][0]] == t[n];
  }

  lemma AttachTree(own: map<int, nat>, k: Links, ring: Rings, t: Shape, x: int, s: nat, n: Node)
    requires Members(own, ring) && (forall r :: r in ring ==> |ring[r]| > 0)
    requires ShapeOK(t) && Sized(ring, t) && TreeAt(k, ring, t)
    requires x !in own && x > 0 && s !in ring
    requires n !in t && n.prefix >= 2 && (n.IsRoot() || n.Parent() in t)
    ensures var p := if n.IsRoot() then 0 else HeadOf(ring, t, n.Parent());
            TreeAt(Attach(k, x, n, p), ring[s := [x]], t[n := s])
  {
    var p := if n.IsRoot() then 0 else HeadOf(ring, t, n.Parent());
    var k', ring', t' := Attach(k, x, n, p), ring[s := [x]], t[n := s];
    forall m | m in t'
      ensures NodeAt(k', ring', t', m)
    {
      if m == n {
        AttachNewNode(k, ring, t, x, s, n, p);
      } else {
        AttachOtherNode(own, k, ring, t, x, s, n, m);
      }
    }
  }

  /** Rewriting tree links, and the ring links of a chunk outside the rings, leaves the rings alone. */
  lemma TreeLinksOnly(own: map<int, nat>, k: Links, ring: Rings, k': Links, x: int)
    requires Members(own, ring) && RingsAt(k, ring) && x !in own
    requires forall y, f :: y != x && (f == Next || f == Prev) ==> Get(k', y, f) == Get(k, y, f)
    ensures RingsAt(k', ring)
  {
    forall r | r in ring
      ensures RingAt(k', ring[r])
    {
      assert RingAt(k, ring[r]);
      forall j | 0 <= j < |ring[r]|
        ensures LinkedAt(k', ring[r], j)
      {
        assert LinkedAt(k, ring[r], j);
        assert ring[r][j] in own;
      }
    }
  }

  lemma AttachSized(ring: Rings, t: Shape, x: int, s: nat, n: Node)
    requires Sized(ring, t) && n !in t
    ensures Sized(ring[s := [x]], t[n := s])
  {
    var ring', t' := ring[s := [x]], t[n := s];
    assert t'[n] == s;
    forall r | r in ring' && r >= MIN_LARGE
      ensures r in t'.Values
    {
      if r != s {
        var m :| m in t && t[m] == r;
        assert t'[m] == r;
      }
    }
  }

  lemma AttachHeads(ring: Rings, t: Shape, x: int, s: nat, n: Node, q: Node)
    requires Sized(ring, t) && s !in ring && n !in t
    ensures HeadOf(ring[s := [x]], t[n := s], q) == if q == n then x else HeadOf(ring, t, q)
  {
    if q in t {
      assert t[q] in ring;
    }
  }

  lemma AttachNewNode(k: Links, ring: Rings, t: Shape, x: int, s: nat, n: Node, p: int)
    requires ShapeOK(t) && Sized(ring, t) && s !in ring && x > 0
    requires n !in t && n.prefix >= 2 && p == (if n.IsRoot() then 0 else HeadOf(ring, t, n.Parent()))
    requires x != p
    ensures NodeAt(Attach(k, x, n, p), ring[s := [x]], t[n := s], n)
  {
    AttachHeads(ring, t, x, s, n, n);
    AttachHeads(ring, t, x, s, n, n.Left());
    AttachHeads(ring, t, x, s, n, n.Right());
    AttachHeads(ring, t, x, s, n, n.Parent());
    assert n.Left().Parent() == n && n.Right().Parent() == n;
  }

  lemma AttachOtherNode(own: map<int, nat>, k: Links, ring: Rings, t: Shape, x: int, s: nat, n: Node, m: Node)
    requires Members(own, ring) && (forall r :: r in ring ==> |ring[r]| > 0)
    requires ShapeOK(t) && Sized(ring, t) && NodeAt(k, ring, t, m)
    requires x !in own && x > 0 && s !in ring
    requires n !in t && n.prefix >= 2 && (n.IsRoot() || n.Parent() in t) && m in t
    ensures var p := if n.IsRoot() then 0 else HeadOf(ring, t, n.Parent());
            NodeAt(Attach(k, x, n, p), ring[s := [x]], t[n := s], m)
  {
    AttachHeads(ring, t, x, s, n, m);
    AttachHeads(ring, t, x, s, n, m.Left());
    AttachHeads(ring, t, x, s, n, m.Right());
    AttachHeads(ring, t, x, s, n, m.Parent());
    HeadsDiffer(own, ring, t, m, n.Parent());
    assert m.IsRoot() || m.Parent() in t;
    var p := if n.IsRoot() then 0 else HeadOf(ring, t, n.Parent());
    hide Members, ShapeOK, Sized, HeadOf;
    AttachGet(k, x, n, p, HeadOf(ring, t, m));
    RootIsNoChild(m, n);
  }

  lemma AttachGet(k: Links, x: int, n: Node, p: int, y: int)
    requires y != x
    ensures forall f :: Get(Attach(k, x, n, p), y, f) ==
              if !n.IsRoot() && y == p && f == (if n == n.Parent().Right() then Right else Left) then x else Get(k, y, f)
  {
  }

  lemma RootIsNoChild(m: Node, n: Node)
    ensures n == m.Left() || n == m.Right() <==> m == n.Parent()
    ensures m.prefix >= 2 && m == n.Parent() ==> !n.IsRoot()
  {
  }

  // ----- dropping from a ring

  lemma DropMembers(own: map<int, nat>, ring: Rings, x: int, i: int)
    requires Members(own, ring) && x in own && own[x] in ring && NoDup(ring[own[x]])
    requires 0 <= i < |ring[own[x]]| && ring[own[x]][i] == x
    ensures |ring[own[x]]| > 1 ==> Members(own - {x}, ring[own[x] := DropAt(ring[own[x]], i)])
    ensures |ring[own[x]]| == 1 ==> Members(own - {x}, ring - {own[x]})
  {
    var xs := ring[own[x]];
    forall y | y in xs && y != x
      ensures y in DropAt(xs, i)
    {
      var j :| 0 <= j < |xs| && xs[j] == y;
      assert DropAt(xs, i)[if j < i then j else j - 1] == y;
    }
    assert forall j :: 0 <= j < |xs| - 1 ==> DropAt(xs, i)[j] == xs[if j < i then j else j + 1];
  }

  /** A small chunk leaves its ring; an emptied ring goes away. */
  lemma DropSmall(own: map<int, nat>, k: Links, ring: Rings, t: Shape, x: int, i: int)
    requires ListsOK(own, k, ring, t) && x in own && own[x] < MIN_LARGE
    requires own[x] in ring && 0 <= i < |ring[own[x]]| && ring[own[x]][i] == x
    ensures var xs := ring[own[x]];
            if |xs| > 1
            then ListsOK(own - {x}, Bypass(k, Before(xs, i), After(xs, i)), ring[own[x] := DropAt(xs, i)], t)
            else ListsOK(own - {x}, k, ring - {own[x]}, t)
  {
    var s := own[x];
    var xs := ring[s];
    assert RingAt(k, xs);
    DropMembers(own, ring, x, i);
    if |xs| > 1 {
      var k', ring' := Bypass(k, Before(xs, i), After(xs, i)), ring[s := DropAt(xs, i)];
      RingShrinks(k, xs, i);
      OtherRings(own, k, ring, k', x, s);
      SameTree(own, k, ring, t, k', ring', s);
    } else {
      SameTree(own, k, ring, t, k, ring - {s}, s);
    }
  }

  /** A tree chunk that is not its ring's head is unlinked like a list element. */
  lemma DropFollower(own: map<int, nat>, k: Links, ring: Rings, t: Shape, x: int, i: int)
    requires ListsOK(own, k, ring, t) && x in own && own[x] >= MIN_LARGE
    requires own[x] in ring && 0 < i < |ring[own[x]]| && ring[own[x]][i] == x
    ensures var xs := ring[own[x]];
            ListsOK(own - {x}, Bypass(k, Before(xs, i), After(xs, i)), ring[own[x] := DropAt(xs, i)], t)
  {
    var s := own[x];
    var xs := ring[s];
    assert RingAt(k, xs);
    DropMembers(own, ring, x, i);
    var k', ring' := Bypass(k, Before(xs, i), After(xs, i)), ring[s := DropAt(xs, i)];
    RingShrinks(k, xs, i);
    OtherRings(own, k, ring, k', x, s);
    TreeKept(k, ring, t, k', ring');
    forall r, j | r in ring' && r >= MIN_LARGE && 0 < j < |ring'[r]|
      ensures Unlinked(k', ring'[r][j])
    {
      assert Unlinked(k, ring[r][if r == s && j >= i then j + 1 else j]);
    }
  }

  /** ktchunk_update_parent: the parent's link to chunk x now leads to c. */
  function UpdateParent(k: Links, x: int, c: int): Links {
    var p := Get(k, x, Parent);
    if Get(k, p, Left) == x then Put(k, p, Left, c) else Put(k, p, Right, c)
  }

  /** The parent link of a child that exists. */
  function Adopt(k: Links, child: int, r: int): Links {
    if child != 0 then Put(k, child, Parent, r) else k
  }

  /** ktchunk_replace_head: r takes over the place of x in the tree and in the ring. */
  function ReplaceHead(k: Links, x: int, r: int): Links {
    var k1 := Put(Put(Put(k, r, Parent, Get(k, x, Parent)), r, Left, Get(k, x, Left)), r, Right, Get(k, x, Right));
    var k2 := Put(k1, r, Prev, Get(k1, x, Prev));
    var k3 := Put(k2, Get(k2, x, Prev), Next, r);
    var k4 := Adopt(k3, Get(k3, r, Left), r);
    Adopt(k4, Get(k4, r, Right), r)
  }

  function HeadOut(k: Links, x: int, r: int, isRoot: bool): Links {
    if isRoot then ReplaceHead(k, x, r) else UpdateParent(ReplaceHead(k, x, r), x, r)
  }

  /** RingAt looks at the ring links only. */
  lemma SameRing(k: Links, k': Links, xs: seq<int>)
    requires RingAt(k, xs)
    requires forall y, f :: f == Next || f == Prev ==> Get(k', y, f) == Get(k, y, f)
    ensures RingAt(k', xs)
  {
    forall j | 0 <= j < |xs|
      ensures LinkedAt(k', xs, j)
    {
      assert LinkedAt(k, xs, j);
    }
  }

  lemma HeadOutRings(own: map<int, nat>, k: Links, ring: Rings, x: int, isRoot: bool)
    requires Members(own, ring) && RingsAt(k, ring) && x in own && own[x] in ring
    requires |ring[own[x]]| > 1 && ring[own[x]][0] == x
    ensures var xs := ring[own[x]];
            RingsAt(HeadOut(k, x, xs[1], isRoot), ring[own[x] := DropAt(xs, 0)])
  {
    var xs := ring[own[x]];
    var k', k1 := HeadOut(k, x, xs[1], isRoot), Bypass(k, Before(xs, 0), After(xs, 0));
    assert RingAt(k, xs);
    assert LinkedAt(k, xs, 0);
    assert forall y, f :: f == Next || f == Prev ==> Get(k', y, f) == Get(k1, y, f);
    RingShrinks(k, xs, 0);
    SameRing(k1, k', DropAt(xs, 0));
    OtherRings(own, k, ring, k1, x, own[x]);
    forall r | r in ring && r != own[x]
      ensures RingAt(k', ring[r])
    {
      SameRing(k1, k', ring[r]);
    }
  }

  lemma ReplaceHeadGet(k: Links, x: int, r: int, y: int, f: Field)
    requires r != x && f != Next && f != Prev
    requires Get(k, x, Left) != r && Get(k, x, Right) != r
    ensures Get(ReplaceHead(k, x, r), y, f) ==
              if y == r then Get(k, x, f)
              else if f == Parent && y != 0 && (y == Get(k, x, Left) || y == Get(k, x, Right)) then r
              else Get(k, y, f)
  {
  }

  /** What the head's removal does to the tree links of a chunk other than x. */
  lemma HeadOutGet(k: Links, x: int, r: int, isRoot: bool, y: int)
    requires y != x && r != x && y != 0 && r != 0
    requires Get(k, x, Left) != x && Get(k, x, Right) != x && Get(k, x, Parent) != x && Get(k, x, Parent) != r
    requires Get(k, x, Left) != r && Get(k, x, Right) != r
    ensures var k' := HeadOut(k, x, r, isRoot);
            && Get(k', y, Parent) == (if y == r then Get(k, x, Parent)
                                      else if y == Get(k, x, Left) || y == Get(k, x, Right) then r
                                      else Get(k, y, Parent))
            && Get(k', y, Left) == (if y == r then Get(k, x, Left)
                                    else if !isRoot && y == Get(k, x, Parent) && Get(k, y, Left) == x then r
                                    else Get(k, y, Left))
            && Get(k', y, Right) == (if y == r then Get(k, x, Right)
                                     else if !isRoot && y == Get(k, x, Parent) && Get(k, y, Left) != x then r
                                     else Get(k, y, Right))
  {
    ReplaceHeadGet(k, x, r, x, Parent);
    ReplaceHeadGet(k, x, r, Get(k, x, Parent), Left);
    ReplaceHeadGet(k, x, r, y, Left);
    ReplaceHeadGet(k, x, r, y, Right);
    ReplaceHeadGet(k, x, r, y, Parent);
    hide ReplaceHead;
  }

  lemma SameHeads(ring: Rings, t: Shape, s: nat, ys: seq<int>, n: Node, q: Node)
    requires ShapeOK(t) && n in t && t[n] == s && |ys| > 0
    ensures HeadOf(ring[s := ys], t, q) == if q == n then ys[0] else HeadOf(ring, t, q)
  {
  }

  /** Occupied nodes have different nonzero heads; a follower is no head. */
  lemma HeadFacts(own: map<int, nat>, k: Links, ring: Rings, t: Shape)
    requires Members(own, ring) && RingsAt(k, ring) && ShapeOK(t) && Sized(ring, t)
    ensures forall s :: s in ring ==> |ring[s]| > 0
    ensures forall q :: (q in t ==> HeadOf(ring, t, q) > 0) && (q !in t ==> HeadOf(ring, t, q) == 0)
    ensures forall q, u :: q in t && HeadOf(ring, t, q) == HeadOf(ring, t, u) ==> q == u
    ensures forall q, s, j :: q in t && s in ring && 0 < j < |ring[s]| ==> HeadOf(ring, t, q) != ring[s][j]
  {
    assert forall s :: s in ring ==> RingAt(k, ring[s]);
    forall q, u | q in t
      ensures HeadOf(ring, t, q) == HeadOf(ring, t, u) ==> q == u
    {
      HeadsDiffer(own, ring, t, q, u);
    }
    forall q, s, j | q in t && s in ring && 0 < j < |ring[s]|
      ensures HeadOf(ring, t, q) != ring[s][j]
    {
      NotHead(own, k, ring, t, q, s, j);
    }
  }

  lemma HeadOutTree(own: map<int, nat>, k: Links, ring: Rings, t: Shape, x: int, n: Node)
    requires Members(own, ring) && RingsAt(k, ring) && ShapeOK(t) && Sized(ring, t) && TreeAt(k, ring, t)
    requires n in t && t[n] in ring && |ring[t[n]]| > 1 && ring[t[n]][0] == x
    ensures var xs := ring[t[n]];
            TreeAt(HeadOut(k, x, xs[1], n.IsRoot()), ring[t[n] := DropAt(xs, 0)], t)
  {
    var xs := ring[t[n]];
    var k', ring' := HeadOut(k, x, xs[1], n.IsRoot()), ring[t[n] := DropAt(xs, 0)];
    HeadFacts(own, k, ring, t);
    assert xs[1] != x && xs[|xs| - 1] != x && LinkedAt(k, xs, 0) by {
      assert RingAt(k, xs);
    }
    forall q
      ensures HeadOf(ring', t, q) == if q == n then xs[1] else HeadOf(ring, t, q)
    {
      SameHeads(ring, t, t[n], DropAt(xs, 0), n, q);
    }
    assert xs[1] in own;
    forall m | m in t
      ensures NodeAt(k', ring', t, m)
    {
      assert NodeAt(k, ring, t, n) && NodeAt(k, ring, t, m);
      assert (m.IsRoot() || m.Parent() in t) && (n.IsRoot() || n.Parent() in t);
      assert m.prefix >= 2 && n.prefix >= 2;
      hide HeadOf, Members, ShapeOK, Sized, TreeAt, RingsAt, LinkedAt, HeadOut;
      HeadOutGet(k, x, xs[1], n.IsRoot(), if m == n then xs[1] else HeadOf(ring, t, m));
      RootIsNoChild(m, n);
      RootIsNoChild(n, m);
    }
  }

  lemma HeadOutFollowers(own: map<int, nat>, k: Links, ring: Rings, t: Shape, x: int, n: Node)
    requires Members(own, ring) && RingsAt(k, ring) && ShapeOK(t) && Sized(ring, t) && TreeAt(k, ring, t)
    requires FollowersAt(k, ring)
    requires n in t && t[n] in ring && |ring[t[n]]| > 1 && ring[t[n]][0] == x
    ensures var xs := ring[t[n]];
            FollowersAt(HeadOut(k, x, xs[1], n.IsRoot()), ring[t[n] := DropAt(xs, 0)])
  {
    var xs := ring[t[n]];
    var k', ring' := HeadOut(k, x, xs[1], n.IsRoot()), ring[t[n] := DropAt(xs, 0)];
    HeadFacts(own, k, ring, t);
    assert NodeAt(k, ring, t, n) && (n.IsRoot() || n.Parent() in t) && n.prefix >= 2;
    forall r, j | r in ring' && r >= MIN_LARGE && 0 < j < |ring'[r]|
      ensures Unlinked(k', ring'[r][j])
    {
      var i := if r == t[n] then j + 1 else j;
      assert ring'[r][j] == ring[r][i] && Unlinked(k, ring[r][i]);
      assert ring[r][i] in own && own[ring[r][i]] == r && own[xs[1]] == t[n];
      assert RingAt(k, ring[r]) && RingAt(k, xs) && LinkedAt(k, xs, 0);
      hide HeadOf, Members, ShapeOK, Sized, TreeAt, RingsAt, LinkedAt, HeadOut;
      HeadOutGet(k, x, xs[1], n.IsRoot(), ring[r][i]);
    }
  }

  /** The next chunk of the ring takes the place of a head that leaves. */
  lemma DropHead(own: map<int, nat>, k: Links, ring: Rings, t: Shape, x: int, n: Node)
    requires ListsOK(own, k, ring, t) && x in own && n in t && t[n] == own[x]
    requires own[x] in ring && |ring[own[x]]| > 1 && ring[own[x]][0] == x
    ensures var xs := ring[own[x]];
            ListsOK(own - {x}, HeadOut(k, x, xs[1], n.IsRoot()), ring[own[x] := DropAt(xs, 0)], t)
  {
    assert RingAt(k, ring[own[x]]);
    DropMembers(own, ring, x, 0);
    HeadOutRings(own, k, ring, x, n.IsRoot());
    HeadOutTree(own, k, ring, t, x, n);
    HeadOutFollowers(own, k, ring, t, x, n);
    assert Sized(ring[own[x] := DropAt(ring[own[x]], 0)], t);
    hide ShapeOK, RingsAt, TreeAt, FollowersAt, Members, HeadOut, Sized;
  }

  // ----- removing a node

  /** The only chunk of its size leaves from a leaf. */
  function LeafOut(k: Links, x: int): Links {
    if Get(k, x, Parent) != 0 then UpdateParent(k, x, 0) else k
  }

  /** Links of r after it has taken over both subtrees of x. */
  function TakeOver(k: Links, x: int, r: int): Links {
    var k1 := Put(k, r, Left, Get(k, x, Left));
    var k2 := Adopt(k1, Get(k1, r, Left), r);
    var k3 := Put(k2, r, Right, Get(k2, x, Right));
    Adopt(k3, Get(k3, r, Right), r)
  }

  /** The only chunk of its size leaves an inner node; the leaf r below moves up into its place. */
  function InnerOut(k: Links, x: int, r: int): Links {
    var k1 := TakeOver(UpdateParent(k, r, 0), x, r);
    var k2 := Put(k1, r, Parent, Get(k1, x, Parent));
    if Get(k2, r, Parent) != 0 then UpdateParent(k2, x, r) else k2
  }

  lemma SingleOutRings(own: map<int, nat>, k: Links, ring: Rings, k': Links, x: int)
    requires Members(own, ring) && RingsAt(k, ring) && x in own
    requires forall y, f :: f == Next || f == Prev ==> Get(k', y, f) == Get(k, y, f)
    ensures RingsAt(k', ring - {own[x]})
  {
    forall r | r in ring
      ensures RingAt(k', ring[r])
    {
      SameRing(k, k', ring[r]);
    }
  }

  lemma SingleOutSized(ring: Rings, t: Shape, t': Shape, s: nat)
    requires Sized(ring, t) && s >= MIN_LARGE
    requires t'.Values == t.Values - {s}
    ensures Sized(ring - {s}, t')
  {
    forall n | n in t'
      ensures t'[n] in ring - {s}
    {
      assert t'[n] in t'.Values;
      var m :| m in t && t[m] == t'[n];
    }
  }

  lemma LeafOutTree(own: map<int, nat>, k: Links, ring: Rings, t: Shape, x: int, n: Node)
    requires Members(own, ring) && RingsAt(k, ring) && ShapeOK(t) && Sized(ring, t) && TreeAt(k, ring, t)
    requires n in t && IsLeaf(t, n) && HeadOf(ring, t, n) == x
    ensures TreeAt(LeafOut(k, x), ring - {t[n]}, t - {n})
  {
    var k', ring', t' := LeafOut(k, x), ring - {t[n]}, t - {n};
    HeadFacts(own, k, ring, t);
    assert forall q :: HeadOf(ring', t', q) == if q == n then 0 else HeadOf(ring, t, q);
    forall m | m in t'
      ensures NodeAt(k', ring', t', m)
    {
      assert NodeAt(k, ring, t, n) && NodeAt(k, ring, t, m);
      assert (m.IsRoot() || m.Parent() in t) && (n.IsRoot() || n.Parent() in t);
      assert m.prefix >= 2 && n.prefix >= 2;
      hide HeadOf, Members, ShapeOK, Sized, TreeAt, RingsAt, LeafOut;
      LeafOutGet(k, x, HeadOf(ring, t, m));
      RootIsNoChild(m, n);
      RootIsNoChild(n, m);
    }
  }

  lemma LeafOutGet(k: Links, x: int, y: int)
    ensures var k', p := LeafOut(k, x), Get(k, x, Parent);
            && Get(k', y, Parent) == Get(k, y, Parent)
            && Get(k', y, Left) == (if p != 0 && y == p && Get(k, y, Left) == x then 0 else Get(k, y, Left))
            && Get(k', y, Right) == (if p != 0 && y == p && Get(k, y, Left) != x then 0 else Get(k, y, Right))
  {
  }

  lemma SingleOutFollowers(own: map<int, nat>, k: Links, ring: Rings, t: Shape, k': Links, s: nat)
    requires Members(own, ring) && RingsAt(k, ring) && ShapeOK(t) && Sized(ring, t) && FollowersAt(k, ring)
    requires forall y, f :: f != Next && f != Prev && Get(k', y, f) != Get(k, y, f) ==>
               exists n :: n in t && y == HeadOf(ring, t, n)
    ensures FollowersAt(k', ring - {s})
  {
    HeadFacts(own, k, ring, t);
    forall r, j | r in ring - {s} && r >= MIN_LARGE && 0 < j < |ring[r]|
      ensures Unlinked(k', ring[r][j])
    {
      assert Unlinked(k, ring[r][j]);
      hide HeadOf;
    }
  }

  lemma DropLeaf(own: map<int, nat>, k: Links, ring: Rings, t: Shape, x: int, n: Node)
    requires ListsOK(own, k, ring, t) && x in own && n in t && t[n] == own[x] && IsLeaf(t, n)
    requires own[x] in ring && ring[own[x]] == [x]
    ensures ListsOK(own - {x}, LeafOut(k, x), ring - {own[x]}, t - {n})
  {
    var k' := LeafOut(k, x);
    assert RingAt(k, ring[own[x]]);
    DropMembers(own, ring, x, 0);
    SingleOutRings(own, k, ring, k', x);
    RemoveLeafKeepsShape(t, n);
    LeafOutTree(own, k, ring, t, x, n);
    assert (t - {n}).Values == t.Values - {own[x]} by {
      LeafOutValues(t, n);
    }
    SingleOutSized(ring, t, t - {n}, own[x]);
    assert NodeAt(k, ring, t, n) && (n.IsRoot() || n.Parent() in t);
    SingleOutFollowers(own, k, ring, t, k', own[x]);
    hide ShapeOK, RingsAt, TreeAt, FollowersAt, Members, LeafOut, Sized;
  }

  lemma LeafOutValues(t: Shape, n: Node)
    requires ShapeOK(t) && n in t
    ensures (t - {n}).Values == t.Values - {t[n]}
  {
    var u := t - {n};
    forall s | s in t.Values - {t[n]}
      ensures s in u.Values
    {
      var m :| m in t && t[m] == s;
      assert m in u && u[m] == s;
    }
  }

  lemma TakeOverGet(k: Links, x: int, r: int, y: int, f: Field)
    requires r != x && Get(k, x, Left) != r && Get(k, x, Right) != r && Get(k, x, Left) != x && Get(k, x, Right) != x
    ensures Get(TakeOver(k, x, r), y, f) ==
              if y == r && (f == Left || f == Right) then Get(k, x, f)
              else if f == Parent && y != 0 && (y == Get(k, x, Left) || y == Get(k, x, Right)) then r
              else Get(k, y, f)
  {
  }

  function UpdatedLink(k: Links, x: int, c: int, y: int, f: Field): int {
    var p := Get(k, x, Parent);
    if y == p && f == (if Get(k, p, Left) == x then Left else Right) then c else Get(k, y, f)
  }

  lemma UpdateParentGet(k: Links, x: int, c: int, y: int, f: Field)
    ensures Get(UpdateParent(k, x, c), y, f) == UpdatedLink(k, x, c, y, f)
  {
  }

  /** How chunk x, its tree neighbours and a leaf r under it are linked. */
  ghost predicate LeafReady(k: Links, x: int, r: int) {
    var p, q, c, d := Get(k, x, Parent), Get(k, r, Parent), Get(k, x, Left), Get(k, x, Right);
    && r != x && r != 0 && x != 0
    && p != x && p != r && q != 0 && q != r && p != q
    && c != x && d != x && (c == d ==> c == 0)
    && (c != 0 ==> c != p) && (d != 0 ==> d != p)
    && (c == r || d == r <==> q == x)
  }

  /** What moving leaf r into the place of x does to the tree links of a chunk other than x. */
  lemma InnerOutGet(k: Links, x: int, r: int, y: int)
    requires y != x && y != 0 && LeafReady(k, x, r)
    ensures var k' := InnerOut(k, x, r);
            var p, q := Get(k, x, Parent), Get(k, r, Parent);
            && Get(k', y, Parent) == (if y == r then p
                                      else if y == Get(k, x, Left) || y == Get(k, x, Right) then r
                                      else Get(k, y, Parent))
            && Get(k', y, Left) == (if y == r then (if Get(k, x, Left) == r then 0 else Get(k, x, Left))
                                    else if y == p && Get(k, y, Left) == x then r
                                    else if y == q && Get(k, y, Left) == r then 0
                                    else Get(k, y, Left))
            && Get(k', y, Right) == (if y == r then (if Get(k, x, Right) == r && q == x then 0 else Get(k, x, Right))
                                     else if y == p && Get(k, y, Left) != x then r
                                     else if y == q && Get(k, y, Left) != r then 0
                                     else Get(k, y, Right))
  {
    var k0 := UpdateParent(k, r, 0);
    forall z, f
      ensures Get(k0, z, f) == UpdatedLink(k, r, 0, z, f)
    {
      UpdateParentGet(k, r, 0, z, f);
    }
    var k2 := Put(TakeOver(k0, x, r), r, Parent, Get(TakeOver(k0, x, r), x, Parent));
    forall f
      ensures Get(UpdateParent(k2, x, r), y, f) == UpdatedLink(k2, x, r, y, f)
    {
      UpdateParentGet(k2, x, r, y, f);
    }
    TakeOverGet(k0, x, r, y, Left);
    TakeOverGet(k0, x, r, y, Right);
    TakeOverGet(k0, x, r, y, Parent);
    TakeOverGet(k0, x, r, x, Parent);
    TakeOverGet(k0, x, r, Get(k, x, Parent), Left);
    hide TakeOver, UpdateParent;
  }

  lemma LeafUnder(t: Shape, n: Node, leaf: Node)
    requires ShapeOK(t) && n in t && leaf in t && leaf != n && Below(n, leaf)
    ensures !leaf.IsRoot() && leaf.Parent() in t && leaf.depth < n.depth
    ensures leaf.Parent().depth <= n.depth
  {
    BelowSplit(n, leaf);
    if leaf.IsRoot() {
      assert n.depth - leaf.depth > 0;
      ShrToOne(leaf.prefix, n.depth - leaf.depth);
    }
  }

  lemma InnerOutHeads(own: map<int, nat>, ring: Rings, t: Shape, n: Node, leaf: Node, q: Node)
    requires Members(own, ring) && ShapeOK(t) && Sized(ring, t)
    requires n in t && leaf in t && leaf != n
    ensures HeadOf(ring - {t[n]}, t[n := t[leaf]] - {leaf}, q) ==
              if q == leaf then 0 else if q == n then HeadOf(ring, t, leaf) else HeadOf(ring, t, q)
  {
    assert t[n] != t[leaf];
  }

  lemma InnerOutTree(own: map<int, nat>, k: Links, ring: Rings, t: Shape, x: int, n: Node, leaf: Node)
    requires Members(own, ring) && RingsAt(k, ring) && ShapeOK(t) && Sized(ring, t) && TreeAt(k, ring, t)
    requires n in t && HeadOf(ring, t, n) == x
    requires leaf in t && leaf != n && IsLeaf(t, leaf) && Below(n, leaf)
    ensures TreeAt(InnerOut(k, x, HeadOf(ring, t, leaf)), ring - {t[n]}, t[n := t[leaf]] - {leaf})
  {
    var r := HeadOf(ring, t, leaf);
    var k', ring', t' := InnerOut(k, x, r), ring - {t[n]}, t[n := t[leaf]] - {leaf};
    HeadFacts(own, k, ring, t);
    LeafUnder(t, n, leaf);
    LeafIsReady(own, k, ring, t, x, n, leaf);
    forall m | m in t'
      ensures NodeAt(k', ring', t', m)
    {
      InnerOutHeads(own, ring, t, n, leaf, m);
      InnerOutHeads(own, ring, t, n, leaf, m.Left());
      InnerOutHeads(own, ring, t, n, leaf, m.Right());
      InnerOutHeads(own, ring, t, n, leaf, m.Parent());
      assert NodeAt(k, ring, t, n) && NodeAt(k, ring, t, m) && NodeAt(k, ring, t, leaf);
      assert (m.IsRoot() || m.Parent() in t) && (n.IsRoot() || n.Parent() in t);
      assert m.prefix >= 2 && n.prefix >= 2;
      hide HeadOf, Members, ShapeOK, Sized, TreeAt, RingsAt, InnerOut, Below, LeafReady;
      InnerOutNode(k, ring, t, n, leaf, m, ring', t');
    }
  }

  lemma InnerOutNode(k: Links, ring: Rings, t: Shape, n: Node, leaf: Node, m: Node, ring': Rings, t': Shape)
    requires forall q :: (q in t ==> HeadOf(ring, t, q) > 0) && (q !in t ==> HeadOf(ring, t, q) == 0)
    requires forall q, u :: q in t && HeadOf(ring, t, q) == HeadOf(ring, t, u) ==> q == u
    requires forall q :: q == m || q == m.Left() || q == m.Right() || q == m.Parent() ==>
               HeadOf(ring', t', q) ==
                 if q == leaf then 0 else if q == n then HeadOf(ring, t, leaf) else HeadOf(ring, t, q)
    requires NodeAt(k, ring, t, n) && NodeAt(k, ring, t, m) && NodeAt(k, ring, t, leaf)
    requires (m.IsRoot() || m.Parent() in t) && (n.IsRoot() || n.Parent() in t) && m.prefix >= 2 && n.prefix >= 2
    requires n in t && m in t && leaf in t && m != leaf && n != leaf
    requires !leaf.IsRoot() && leaf.Parent() in t && leaf.depth < n.depth && IsLeaf(t, leaf)
    requires LeafReady(k, HeadOf(ring, t, n), HeadOf(ring, t, leaf))
    ensures NodeAt(InnerOut(k, HeadOf(ring, t, n), HeadOf(ring, t, leaf)), ring', t', m)
  {
    var x, r := HeadOf(ring, t, n), HeadOf(ring, t, leaf);
    InnerOutGet(k, x, r, if m == n then r else HeadOf(ring, t, m));
    hide HeadOf, InnerOut, LeafReady;
    RootIsNoChild(m, n);
    RootIsNoChild(n, m);
    RootIsNoChild(n, leaf);
    RootIsNoChild(m, leaf);
  }

  lemma LeafIsReady(own: map<int, nat>, k: Links, ring: Rings, t: Shape, x: int, n: Node, leaf: Node)
    requires Members(own, ring) && RingsAt(k, ring) && ShapeOK(t) && Sized(ring, t) && TreeAt(k, ring, t)
    requires n in t && HeadOf(ring, t, n) == x
    requires leaf in t && leaf != n && Below(n, leaf)
    ensures LeafReady(k, x, HeadOf(ring, t, leaf))
  {
    HeadFacts(own, k, ring, t);
    LeafUnder(t, n, leaf);
    assert NodeAt(k, ring, t, n) && NodeAt(k, ring, t, leaf);
    assert n.IsRoot() || n.Parent() in t;
    RootIsNoChild(n, leaf);
    hide HeadOf, Members, ShapeOK, Sized, TreeAt, RingsAt;
  }

  lemma InnerOutValues(t: Shape, n: Node, leaf: Node)
    requires ShapeOK(t) && n in t && leaf in t && leaf != n
    ensures (t[n := t[leaf]] - {leaf}).Values == t.Values - {t[n]}
  {
    var u := t[n := t[leaf]] - {leaf};
    assert u[n] == t[leaf];
    forall s | s in t.Values - {t[n]}
      ensures s in u.Values
    {
      var m :| m in t && t[m] == s;
      if m != leaf {
        assert m in u && u[m] == s;
      }
    }
  }

  /** The links InnerOut rewrites are those of occupied nodes. */
  lemma InnerOutTouches(k: Links, x: int, r: int)
    ensures forall y, f :: f != Next && f != Prev && Get(InnerOut(k, x, r), y, f) != Get(k, y, f) ==>
              y == r || y == Get(k, r, Parent) || y == Get(k, x, Parent) || y == Get(k, x, Left) || y == Get(k, x, Right)
    ensures forall y, f :: f == Next || f == Prev ==> Get(InnerOut(k, x, r), y, f) == Get(k, y, f)
  {
    var k0 := UpdateParent(k, r, 0);
    var k1 := TakeOver(k0, x, r);
    var k2 := Put(k1, r, Parent, Get(k1, x, Parent));
    UpdateParentTouches(k, r, 0);
    TakeOverTouches(k0, x, r);
    UpdateParentTouches(k2, x, r);
    hide UpdateParent, TakeOver;
  }

  lemma UpdateParentTouches(k: Links, x: int, c: int)
    ensures forall y, f :: Get(UpdateParent(k, x, c), y, f) != Get(k, y, f) ==>
              y == Get(k, x, Parent) && (f == Left || f == Right)
    ensures forall y, f :: Get(UpdateParent(k, x, c), y, f) == Get(k, y, f) || Get(UpdateParent(k, x, c), y, f) == c
  {
  }

  lemma TakeOverTouches(k: Links, x: int, r: int)
    ensures forall y, f :: Get(TakeOver(k, x, r), y, f) != Get(k, y, f) ==>
              f != Next && f != Prev && (y == r || (y != 0 && (y == Get(k, x, Left) || y == Get(k, x, Right))))
    ensures forall y :: Get(TakeOver(k, x, r), y, Parent) == Get(k, y, Parent) || Get(TakeOver(k, x, r), y, Parent) == r
  {
  }

  /** The leaf found below takes the place of the only chunk of an inner node. */
  lemma DropInner(own: map<int, nat>, k: Links, ring: Rings, t: Shape, x: int, n: Node, leaf: Node)
    requires ListsOK(own, k, ring, t) && x in own && n in t && t[n] == own[x]
    requires own[x] in ring && ring[own[x]] == [x]
    requires leaf in t && leaf != n && IsLeaf(t, leaf) && Below(n, leaf)
    ensures ListsOK(own - {x}, InnerOut(k, x, HeadOf(ring, t, leaf)), ring - {own[x]}, t[n := t[leaf]] - {leaf})
  {
    var t' := t[n := t[leaf]] - {leaf};
    var k' := InnerOut(k, x, HeadOf(ring, t, leaf));
    assert RingAt(k, ring[own[x]]);
    DropMembers(own, ring, x, 0);
    InnerOutTouches(k, x, HeadOf(ring, t, leaf));
    SingleOutRings(own, k, ring, k', x);
    ReplaceKeepsShape(t, n, leaf);
    InnerOutTree(own, k, ring, t, x, n, leaf);
    InnerOutValues(t, n, leaf);
    SingleOutSized(ring, t, t', own[x]);
    InnerOutFollowers(own, k, ring, t, x, n, leaf);
    hide ShapeOK, RingsAt, TreeAt, FollowersAt, Members, InnerOut, Sized;
  }

  lemma InnerOutFollowers(own: map<int, nat>, k: Links, ring: Rings, t: Shape, x: int, n: Node, leaf: Node)
    requires Members(own, ring) && RingsAt(k, ring) && ShapeOK(t) && Sized(ring, t) && FollowersAt(k, ring)
    requires TreeAt(k, ring, t)
    requires n in t && HeadOf(ring, t, n) == x && leaf in t && leaf != n && Below(n, leaf)
    ensures FollowersAt(InnerOut(k, x, HeadOf(ring, t, leaf)), ring - {t[n]})
  {
    var r := HeadOf(ring, t, leaf);
    LeafUnder(t, n, leaf);
    HeadFacts(own, k, ring, t);
    InnerOutTouches(k, x, r);
    assert NodeAt(k, ring, t, n) && NodeAt(k, ring, t, leaf);
    forall s, j | s in ring - {t[n]} && s >= MIN_LARGE && 0 < j < |ring[s]|
      ensures Unlinked(InnerOut(k, x, r), ring[s][j])
    {
      assert Unlinked(k, ring[s][j]);
      assert ring[s][j] in own;
      hide HeadOf, InnerOut, ShapeOK, Sized, TreeAt, RingsAt;
    }
  }
}
