/** What growing and shrinking the kernel heap does to pages and frames, and when it is allowed (memory.c). */
module HeapPages {
  import opened Paging
  import opened Sequences

  const WORD_LIMIT: nat := 0x1_0000_0000
  const INITIAL_HEAP: nat := 8192
  const HEAP_LIMIT: nat := 0xFF80_0000
  /** The heap is in the upper half of the address space, with the kernel. */
  const HEAP_LOWEST: nat := 0x8000_0000

  /** Unsigned 32-bit arithmetic. */
  function Wrap(x: int): int {
    x % WORD_LIMIT
  }

  lemma WrapIs(x: int)
    ensures 0 <= x < WORD_LIMIT ==> Wrap(x) == x
    ensures x < 0 <= x + WORD_LIMIT ==> Wrap(x) == x + WORD_LIMIT
    ensures WORD_LIMIT == 0x1_0000_0000 && Wrap(x) >= 0
  {
  }

  predicate Within(lo: int, p: int, hi: int) {
    lo < p <= hi
  }

  /** The pages after lo, up to and with hi. */
  function Pages(lo: int, hi: int): set<int> {
    set p | lo < p <= hi && Within(lo, p, hi)
  }

  // ----- the checks

  /** The heap's growth is refused when its end would reach the limit, or wrap. */
  predicate GrowAllowed(end: nat, amount: nat) {
    !(Wrap(end + amount) >= HEAP_LIMIT) && !(Wrap(end + amount) < end)
  }

  /** Both checks together see every overflow. */
  lemma GrowExact(end: nat, amount: nat)
    requires end < HEAP_LIMIT && 0 < amount < 0x8000_0000
    ensures GrowAllowed(end, amount) <==> end + amount < HEAP_LIMIT
  {
    if end + amount >= WORD_LIMIT {
      assert Wrap(end + amount) == end + amount - WORD_LIMIT;
    }
  }

  /** The heap's reduction is refused when more is taken than the address of its end, or too little remains. */
  predicate ShrinkAllowed(size: nat, end: nat, amount: nat) {
    !(amount > end) && !(Wrap(size - amount) < INITIAL_HEAP)
  }

  /** The check compares with the end's address instead of the size: amounts between the two wrap around and pass. */
  lemma ShrinkExact(size: nat, end: nat, amount: nat)
    requires INITIAL_HEAP <= size <= end < HEAP_LIMIT && amount <= 0x8000_0000
    ensures ShrinkAllowed(size, end, amount) <==> size - amount >= INITIAL_HEAP || size < amount <= end
  {
    if size < amount {
      assert Wrap(size - amount) == size - amount + WORD_LIMIT;
    }
  }

  // ----- growing

  /** Whether the pages from p to last can be mapped one by one: none is, and the free frames suffice for them and
      for the page tables they need. */
  ghost predicate CanGrow(free: int, tables: set<int>, large: set<int>, mapped: set<int>, p: nat, last: int)
    decreases last - p
  {
    p > last ||
    (var need := if p / 1024 in tables then 1 else 2;
     && p !in mapped && p / 1024 !in large && free >= need
     && CanGrow(free - need, tables + {p / 1024}, large, mapped, p + 1, last))
  }

  /** The page tables that are missing for the pages from p to last. */
  ghost function Missing(tables: set<int>, p: nat, last: int): set<int> {
    set q | p <= q <= last && q / 1024 !in tables :: q / 1024
  }

  /** All frames that are needed: one a page, one a missing table. */
  lemma {:induction false} CanGrowExact(free: int, tables: set<int>, large: set<int>, mapped: set<int>, p: nat, last: int)
    requires p <= last + 1 && free >= 0
    ensures CanGrow(free, tables, large, mapped, p, last) <==>
              && (forall q :: p <= q <= last ==> q !in mapped && q / 1024 !in large)
              && free >= last - p + 1 + |Missing(tables, p, last)|
    decreases last - p
  {
    if p > last {
      assert Missing(tables, p, last) == {};
    } else {
      var t := p / 1024;
      var need := if t in tables then 1 else 2;
      assert Missing(tables, p, last) == Missing(tables + {t}, p + 1, last) + if t in tables then {} else {t} by {
        MissingStep(tables, p, last);
      }
      assert t !in Missing(tables + {t}, p + 1, last);
      if free >= need {
        CanGrowExact(free - need, tables + {t}, large, mapped, p + 1, last);
      }
    }
  }

  lemma MissingStep(tables: set<int>, p: nat, last: int)
    requires p <= last
    ensures var t := p / 1024;
            Missing(tables, p, last) == Missing(tables + {t}, p + 1, last) + if t in tables then {} else {t}
  {
    var t := p / 1024;
    var rest := Missing(tables + {t}, p + 1, last) + if t in tables then {} else {t};
    forall u | u in Missing(tables, p, last)
      ensures u in rest
    {
      var q :| p <= q <= last && q / 1024 !in tables && u == q / 1024;
      if u != t {
        assert p + 1 <= q <= last && q / 1024 !in tables + {t};
      }
    }
    forall u | u in rest
      ensures u in Missing(tables, p, last)
    {
      if u == t && t !in tables {
        assert p <= p <= last && p / 1024 !in tables;
      }
    }
  }

  /** The heap's pages as they were, and the pages after lo up to hi mapped, each to a frame of its own, for the
      kernel and writable. */
  ghost predicate Grown(entries: map<int, int>, entries': map<int, int>, lo: int, hi: int) {
    && entries'.Keys == entries.Keys + Pages(lo, hi)
    && entries.Keys !! Pages(lo, hi)
    && (forall v :: v in entries ==> entries'[v] == entries[v])
    && (forall v :: v in Pages(lo, hi) ==> entries'[v] % 4096 == PRESENT + WRITE)
  }

  /** No table went away, and new ones are for the pages after lo up to hi only. */
  ghost predicate TablesGrown(tables: map<int, int>, tables': map<int, int>, lo: int, hi: int) {
    && (forall t :: t in tables ==> t in tables' && tables'[t] == tables[t])
    && (forall t :: t in tables' && t !in tables ==> lo / 1024 <= t <= hi / 1024)
  }

  lemma FloorIs(v: int)
    requires v >= 0
    ensures 0 <= PageFloor(v) <= v && PageFloor(v) % 4096 == 0 && PageFloor(v) / 4096 == v / 4096
  {
  }

  lemma PagesNone(p: int)
    ensures Pages(p, p) == {}
  {
  }

  lemma PagesBelow(lo: int, hi: int)
    requires lo <= hi
    ensures Pages(lo - 1, hi) == Pages(lo, hi) + {lo} && lo !in Pages(lo, hi)
  {
  }

  lemma PagesAbove(lo: int, hi: int)
    requires lo <= hi
    ensures Pages(lo, hi + 1) == Pages(lo, hi) + {hi + 1} && hi + 1 !in Pages(lo, hi)
  {
  }

  /** The pages of a part of a range. */
  lemma PagesSplit(lo: int, mid: int, hi: int)
    requires lo <= mid <= hi
    ensures Pages(lo, hi) == Pages(lo, mid) + Pages(mid, hi) && Pages(lo, mid) !! Pages(mid, hi)
  {
  }

  lemma NothingGrown(entries: map<int, int>, tables: map<int, int>, lo: int, hi: int)
    ensures Grown(entries, entries, lo, lo) && TablesGrown(tables, tables, lo, hi)
  {
  }

  lemma {:induction false} PagesCount(lo: int, hi: int)
    requires lo <= hi
    ensures |Pages(lo, hi)| == hi - lo
    decreases hi - lo
  {
    if lo == hi {
      PagesNone(lo);
    } else {
      PagesCount(lo, hi - 1);
      PagesAbove(lo, hi - 1);
    }
  }

  lemma {:induction false} SubsetCount<T>(a: set<T>, b: set<T>)
    requires a <= b
    ensures |a| <= |b|
  {
    assert b == a + (b - a);
  }

  /** What was mapped on the way is gone after it has been unmapped. */
  lemma GrownBack(entries: map<int, int>, entries': map<int, int>, lo: int, hi: int, image: set<int>)
    requires Grown(entries, entries', lo, hi) && image <= entries.Keys
    ensures entries' - Pages(lo, hi) == entries && Pages(lo, hi) <= entries'.Keys - image
    ensures entries.Keys <= entries'.Keys
  {
  }

  /** One page after the other. */
  lemma GrowPage(entries: map<int, int>, now: map<int, int>, next: map<int, int>, lo: int, p: int, frame: int)
    requires Grown(entries, now, lo, p - 1) && lo < p && p !in now && IsFrame(frame)
    requires next == now[p := frame + PRESENT + WRITE]
    ensures Grown(entries, next, lo, p)
  {
    EntryOf(frame, PRESENT + WRITE);
    PagesAbove(lo, p - 1);
    hide Pages, IsFrame;
  }

  lemma NotYet(entries: map<int, int>, now: map<int, int>, lo: int, p: int)
    requires Grown(entries, now, lo, p - 1)
    ensures p in now <==> p in entries
  {
  }

  /** Table t is there now, if it was not yet. */
  ghost predicate TableAdded(tables: map<int, int>, tables': map<int, int>, t: int) {
    tables'.Keys == tables.Keys + {t} && forall u :: u in tables ==> tables'[u] == tables[u]
  }

  lemma TablesStep(tables: map<int, int>, now: map<int, int>, next: map<int, int>, lo: int, p: int, hi: int)
    requires TablesGrown(tables, now, lo, hi) && 0 <= lo < p <= hi
    requires TableAdded(now, next, p / 1024)
    ensures TablesGrown(tables, next, lo, hi)
  {
    assert lo / 1024 <= p / 1024 <= hi / 1024;
  }

  lemma CanGrowStep(free: int, tables: set<int>, large: set<int>, mapped: set<int>, p: nat, last: int)
    ensures p > last ==> CanGrow(free, tables, large, mapped, p, last)
    ensures p <= last ==>
              var need := if p / 1024 in tables then 1 else 2;
              CanGrow(free, tables, large, mapped, p, last) <==>
                && p !in mapped && p / 1024 !in large && free >= need
                && CanGrow(free - need, tables + {p / 1024}, large, mapped, p + 1, last)
  {
  }

  // ----- frames are conserved

  /** All frames the pager accounts for: free, mapped, page tables and the page directory. */
  ghost function Holdings(pd: int, tables: map<int, int>, owned: map<int, int>, free: seq<int>): set<int> {
    InUse(pd, tables, owned) + set x | x in free
  }

  lemma {:induction false} SetOfSeq(xs: seq<int>)
    requires NoDup(xs)
    ensures |set x | x in xs| == |xs|
  {
    if xs == [] {
      assert (set x | x in xs) == {};
    } else {
      var front, last := xs[..|xs| - 1], xs[|xs| - 1];
      SetOfSeq(front);
      assert xs == front + [last];
      assert (set x | x in xs) == (set x | x in front) + {last};
      assert last !in front;
    }
  }

  lemma AnyKey<T>(m: map<T, int>) returns (t: T)
    requires |m| > 0
    ensures t in m
  {
    t :| t in m;
  }

  lemma KeyOf<T>(m: map<T, int>, x: int) returns (t: T)
    requires x in m.Values
    ensures t in m && m[t] == x
  {
    t :| t in m && m[t] == x;
  }

  lemma {:induction false} ValuesCount(m: map<int, int>)
    requires forall t, u :: t in m && u in m && t != u ==> m[t] != m[u]
    ensures |m.Values| == |m|
  {
    if |m| == 0 {
      assert m.Values == {};
    } else {
      var t := AnyKey(m);
      var rest := m - {t};
      ValuesCount(rest);
      assert forall u :: u in rest ==> rest[u] == m[u];
      assert m.Values == rest.Values + {m[t]};
      assert m[t] !in rest.Values;
      assert m == rest[t := m[t]];
    }
  }

  /** The frames of the entries. */
  function FramesOf(entries: map<int, int>): map<int, int> {
    map v | v in entries :: FrameOf(entries[v])
  }

  lemma FramesOfValues(entries: map<int, int>)
    ensures FramesOf(entries).Values == set v | v in entries :: FrameOf(entries[v])
    ensures |FramesOf(entries)| == |entries|
  {
    var frames, image := FramesOf(entries), set v | v in entries :: FrameOf(entries[v]);
    assert frames.Keys == entries.Keys;
    forall x | x in image
      ensures x in frames.Values
    {
      var v :| v in entries && FrameOf(entries[v]) == x;
      assert frames[v] == x;
    }
    forall x | x in frames.Values
      ensures x in image
    {
      var v := KeyOf(frames, x);
    }
  }

  /** Nothing is counted twice: the free frames, the mapped ones, the tables and the directory add up. */
  lemma HoldingsCount(pd: int, tables: map<int, int>, owned: map<int, int>, free: seq<int>)
    requires Distinct(pd, tables, owned, free)
    ensures |Holdings(pd, tables, owned, free)| == |free| + |owned| + |tables| + 1
  {
    hide *;
    var mapped, all := FramesOf(owned), set x | x in free;
    DistinctParts(pd, tables, owned, free);
    SetOfSeq(free);
    ValuesCount(tables);
    ValuesCount(mapped);
    HoldingsIs(pd, tables, owned, free);
    FramesOfValues(owned);
    NoCommonValue(tables, mapped);
    NoneFree(tables, free);
    NoneFree(mapped, free);
    assert |{pd} + tables.Values| == 1 + |tables|;
  }

  lemma HoldingsIs(pd: int, tables: map<int, int>, owned: map<int, int>, free: seq<int>)
    ensures Holdings(pd, tables, owned, free) ==
            {pd} + tables.Values + (set v | v in owned :: FrameOf(owned[v])) + set x | x in free
  {
  }

  lemma NoCommonValue(m: map<int, int>, m': map<int, int>)
    requires forall t, v :: t in m && v in m' ==> m[t] != m'[v]
    ensures m.Values !! m'.Values
  {
    forall x | x in m.Values
      ensures x !in m'.Values
    {
      var t := KeyOf(m, x);
      if x in m'.Values {
        var v := KeyOf(m', x);
        assert false;
      }
    }
  }

  lemma NoneFree(m: map<int, int>, free: seq<int>)
    requires forall t :: t in m ==> m[t] !in free
    ensures m.Values !! set x | x in free
  {
    forall x | x in m.Values
      ensures x !in free
    {
      var t := KeyOf(m, x);
    }
  }

  lemma DistinctParts(pd: int, tables: map<int, int>, owned: map<int, int>, free: seq<int>)
    requires Distinct(pd, tables, owned, free)
    ensures NoDup(free) && pd !in free && pd !in tables.Values && pd !in FramesOf(owned).Values
    ensures forall t, u :: t in tables && u in tables && t != u ==> tables[t] != tables[u]
    ensures forall t :: t in tables ==> tables[t] !in free
    ensures var frames := FramesOf(owned);
            && (forall t, u :: t in frames && u in frames && t != u ==> frames[t] != frames[u])
            && (forall t :: t in frames ==> frames[t] !in free)
            && (forall t, v :: t in tables && v in frames ==> tables[t] != frames[v])
  {
    hide IsFrame, FrameOf, NoDup;
    if pd in tables.Values {
      var t := KeyOf(tables, pd);
    }
    if pd in FramesOf(owned).Values {
      var v := KeyOf(FramesOf(owned), pd);
    }
  }

  /** A free frame is mapped. */
  lemma MapHolds(pd: int, tables: map<int, int>, owned: map<int, int>, free: seq<int>, frame: int, page: int, flags: nat)
    requires page !in owned && FrameOf(frame + flags) == frame
    ensures Holdings(pd, tables, owned[page := frame + flags], free) == Holdings(pd, tables, owned, free + [frame])
  {
    hide FrameOf;
    var owned' := owned[page := frame + flags];
    assert (set v | v in owned' :: FrameOf(owned'[v])) == (set v | v in owned :: FrameOf(owned[v])) + {frame} by {
      assert owned'[page] == frame + flags;
      assert forall v :: v in owned ==> owned'[v] == owned[v];
    }
    FreeWithOne(free, frame);
  }

  lemma FreeWithOne(free: seq<int>, frame: int)
    ensures (set x | x in free + [frame]) == (set x | x in free) + {frame}
  {
  }

  /** A free frame becomes a page table. */
  lemma TableHolds(pd: int, tables: map<int, int>, owned: map<int, int>, free: seq<int>, t: int, table: int)
    requires t !in tables
    ensures Holdings(pd, tables[t := table], owned, free) == Holdings(pd, tables, owned, free + [table])
  {
    var tables' := tables[t := table];
    assert tables'.Values == tables.Values + {table} by {
      assert tables'[t] == table;
      assert forall u :: u in tables ==> tables'[u] == tables[u];
    }
    FreeWithOne(free, table);
  }

  /** A mapped frame becomes free. */
  lemma UnmapHolds(pd: int, tables: map<int, int>, owned: map<int, int>, free: seq<int>, page: int)
    requires page in owned
    ensures Holdings(pd, tables, owned - {page}, free + [FrameOf(owned[page])]) == Holdings(pd, tables, owned, free)
  {
    hide FrameOf;
    var owned', frame := owned - {page}, FrameOf(owned[page]);
    assert (set v | v in owned :: FrameOf(owned[v])) == (set v | v in owned' :: FrameOf(owned'[v])) + {frame} by {
      assert forall v :: v in owned' ==> owned'[v] == owned[v];
      assert forall v :: v in owned && v != page ==> v in owned';
    }
    FreeWithOne(free, frame);
  }
}
