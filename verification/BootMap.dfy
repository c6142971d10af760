/** get_mmap: the boot loader's memory map, with overlaps, is made into sorted regions (main.c). */
module BootMap {
  import opened MemoryMap
  import opened Sweep

  // ----- collecting the changes

  /** The changes of the entries in the order they are collected. */
  function ChangesOf(es: seq<Entry>): seq<Change> {
    if es == [] then []
    else
      var e := |es| - 1;
      ChangesOf(es[..e]) + if Kept(es[e]) then [StartOf(es, e), EndChange(es, e)] else []
  }

  /** How many entries are used. */
  function KeptCount(es: seq<Entry>): nat {
    if es == [] then 0 else KeptCount(es[..|es| - 1]) + if Kept(es[|es| - 1]) then 1 else 0
  }

  lemma {:induction false} KeptGrows(es: seq<Entry>, k: nat)
    requires k <= |es|
    ensures KeptCount(es[..k]) <= KeptCount(es)
    decreases |es|
  {
    if k < |es| {
      var front := es[..|es| - 1];
      assert front[..k] == es[..k];
      KeptGrows(front, k);
    } else {
      assert es[..k] == es;
    }
  }

  lemma ChangesSnoc(es: seq<Entry>, e: Entry)
    ensures ChangesOf(es + [e]) ==
            ChangesOf(es) + if Kept(e) then [Change(e.addrLow, |es|), Change(EndOf(e), |es|)] else []
    ensures KeptCount(es + [e]) == KeptCount(es) + if Kept(e) then 1 else 0
  {
    assert (es + [e])[..|es|] == es;
  }

  lemma {:induction false} ChangesAreOK(es: seq<Entry>)
    ensures ChangesOK(es, ChangesOf(es)) && |ChangesOf(es)| == 2 * KeptCount(es)
  {
    if es != [] {
      ChangesAreOK(es[..|es| - 1]);
      ChangesMore(es, ChangesOf(es[..|es| - 1]), ChangesOf(es));
    }
  }

  /** One entry more. */
  lemma ChangesMore(es: seq<Entry>, qs: seq<Change>, ps: seq<Change>)
    requires es != [] && ChangesOK(es[..|es| - 1], qs)
    requires ps == qs + if Kept(es[|es| - 1]) then [StartOf(es, |es| - 1), EndChange(es, |es| - 1)] else []
    ensures ChangesOK(es, ps)
  {
    var n := |es| - 1;
    var front := es[..n];
    assert forall e :: 0 <= e < n ==> front[e] == es[e];
    forall e: nat | e < |es| && Kept(es[e])
      ensures StartOf(es, e) in ps && EndChange(es, e) in ps
    {
      if e < n {
        assert StartOf(front, e) == StartOf(es, e) && EndChange(front, e) == EndChange(es, e);
      }
    }
    forall j, k | 0 <= j < k < |ps| && ps[j] == ps[k]
      ensures Empty(es[ps[j].entry])
    {
      if k < |qs| {
        assert qs[j] == qs[k];
      }
    }
  }

  lemma CollectedMore(es: seq<Entry>, next: nat)
    requires next < |es|
    ensures var e := es[next];
            && ChangesOf(es[..next + 1]) ==
               ChangesOf(es[..next]) + (if Kept(e) then [Change(e.addrLow, next)] + [Change(EndOf(e), next)] else [])
            && KeptCount(es[..next + 1]) == KeptCount(es[..next]) + (if Kept(e) then 1 else 0)
            && (Kept(e) <==> e.addrHigh == 0)
            && EndOf(e) == if e.lenHigh > 0 || (e.addrLow + e.lenLow) % 0x1_0000_0000 < e.addrLow then TOP
                           else (e.addrLow + e.lenLow) % 0x1_0000_0000
  {
    assert es[..next + 1] == es[..next] + [es[next]];
    ChangesSnoc(es[..next], es[next]);
  }

  lemma NoChanges()
    ensures ChangesOf([]) == [] && KeptCount([]) == 0 && MAX_BOOT == 128 && MAX_MAP == 130
  {
  }

  /** The loop over the boot loader's map.  It stops when there are too many entries. */
  method Collect(bootmap: seq<Entry>, list: array<Change>) returns (overflow: bool, count: nat)
    requires list.Length == 2 * MAX_MAP
    modifies list
    ensures overflow <==> 2 * KeptCount(bootmap) > MAX_BOOT
    ensures !overflow ==> count == 2 * KeptCount(bootmap) && list[..count] == ChangesOf(bootmap)
  {
    hide *;
    NoChanges();
    count := 0;
    var next := 0;
    assert bootmap[..0] == [] && list[..0] == [];
    while next < |bootmap|
      invariant 0 <= next <= |bootmap| && count == 2 * KeptCount(bootmap[..next]) <= MAX_BOOT
      invariant list[..count] == ChangesOf(bootmap[..next])
    {
      var entry := bootmap[next];
      CollectedMore(bootmap, next);
      if entry.addrHigh == 0 {
        list[count] := Change(entry.addrLow, next);
        count := count + 1;
        if entry.lenHigh > 0 || (entry.addrLow + entry.lenLow) % 0x1_0000_0000 < entry.addrLow {
          list[count] := Change(TOP, next);
        } else {
          list[count] := Change((entry.addrLow + entry.lenLow) % 0x1_0000_0000, next);
        }
        count := count + 1;
      }
      next := next + 1;
      if count > MAX_BOOT {
        KeptGrows(bootmap, next);
        return true, count;
      }
    }
    assert bootmap[..next] == bootmap;
    overflow := false;
  }

  // ----- sorting

  ghost predicate Settled(es: seq<Entry>, ps: seq<Change>, m: int)
    requires InRange(es, ps)
  {
    forall j, k :: 0 <= j < k < |ps| && m <= k ==> Key(es, ps[j]) <= Key(es, ps[k])
  }

  /** One pass has come to i: the highest of the unsettled ones so far is the last of them. */
  ghost predicate PassOK(es: seq<Entry>, ps: seq<Change>, m: nat, i: nat, changing: bool) {
    && InRange(es, ps) && Settled(es, ps, m) && 1 <= i && m <= |ps|
    && (forall j :: 0 <= j < i && j < m && i <= |ps| ==> Key(es, ps[j]) <= Key(es, ps[if i < m then i - 1 else m - 1]))
    && (!changing ==> forall j :: 0 < j < i && j < |ps| ==> Key(es, ps[j - 1]) <= Key(es, ps[j]))
    && (changing ==> m >= 2)
  }

  function Swapped(ps: seq<Change>, i: nat): seq<Change>
    requires 0 < i < |ps|
  {
    ps[i - 1 := ps[i]][i := ps[i - 1]]
  }

  lemma SwappedIs(ps: seq<Change>, i: nat)
    requires 0 < i < |ps|
    ensures |Swapped(ps, i)| == |ps| && Swapped(ps, i)[i] == ps[i - 1] && Swapped(ps, i)[i - 1] == ps[i]
    ensures forall j :: 0 <= j < |ps| && j != i && j != i - 1 ==> Swapped(ps, i)[j] == ps[j]
  {
  }

  lemma PassKeep(es: seq<Entry>, ps: seq<Change>, m: nat, i: nat, changing: bool)
    requires PassOK(es, ps, m, i, changing) && i < |ps| && Key(es, ps[i - 1]) <= Key(es, ps[i])
    ensures PassOK(es, ps, m, i + 1, changing)
  {
    hide Key;
  }

  lemma PassSwap(es: seq<Entry>, ps: seq<Change>, m: nat, i: nat, changing: bool)
    requires PassOK(es, ps, m, i, changing) && i < |ps| && Key(es, ps[i]) < Key(es, ps[i - 1])
    ensures PassOK(es, Swapped(ps, i), m, i + 1, true)
    ensures multiset(Swapped(ps, i)) == multiset(ps)
  {
    hide Key;
    var qs := Swapped(ps, i);
    assert i < m;
    forall j, k | 0 <= j < k < |qs| && m <= k
      ensures Key(es, qs[j]) <= Key(es, qs[k])
    {
      assert qs[k] == ps[k];
      assert Key(es, ps[if j == i then i - 1 else if j == i - 1 then i else j]) <= Key(es, ps[k]);
    }
  }

  lemma PassDone(es: seq<Entry>, ps: seq<Change>, m: nat, changing: bool)
    requires ps != [] && PassOK(es, ps, m, |ps|, changing)
    ensures changing ==> Settled(es, ps, m - 1)
    ensures !changing ==> Sorted(es, ps)
  {
    hide Key;
    if !changing {
      AdjacentSorted(es, ps, |ps|);
    }
  }

  lemma {:induction false} AdjacentSorted(es: seq<Entry>, ps: seq<Change>, n: nat)
    requires InRange(es, ps) && n <= |ps|
    requires forall j :: 0 < j < n ==> Key(es, ps[j - 1]) <= Key(es, ps[j])
    ensures forall j, k :: 0 <= j < k < n ==> Key(es, ps[j]) <= Key(es, ps[k])
  {
    hide Key;
    if n > 1 {
      AdjacentSorted(es, ps, n - 1);
      forall j | 0 <= j < n - 1
        ensures Key(es, ps[j]) <= Key(es, ps[n - 1])
      {
        assert Key(es, ps[j]) <= Key(es, ps[n - 2]);
      }
    }
  }

  lemma PassStart(es: seq<Entry>, ps: seq<Change>, m: nat)
    requires InRange(es, ps) && Settled(es, ps, m) && m <= |ps|
    ensures PassOK(es, ps, m, 1, false)
  {
  }

  /** The exchange test is the order by keys. */
  lemma SwapTest(es: seq<Entry>, p: Change, q: Change)
    requires p.entry < |es| && q.entry < |es|
    ensures Key(es, q) < Key(es, p) <==>
              q.addr < p.addr
              || (q.addr == p.addr && q.addr == es[q.entry].addrLow && p.addr != es[p.entry].addrLow)
  {
  }

  /** The changes at i and before it are exchanged. */
  method Exchange(changes: array<Change>, n: nat, i: nat)
    requires 0 < i < n <= changes.Length
    modifies changes
    ensures |old(changes[..n])| == n && changes[..n] == Swapped(old(changes[..n]), i)
  {
    ghost var ps := changes[..n];
    var p := changes[i];
    changes[i] := changes[i - 1];
    changes[i - 1] := p;
    SwappedIs(ps, i);
  }

  /** One pass over the changes. */
  method SortPass(es: seq<Entry>, changes: array<Change>, n: nat, ghost m: nat) returns (changing: bool)
    requires 0 < n <= changes.Length && InRange(es, changes[..n]) && m <= n && Settled(es, changes[..n], m)
    modifies changes
    ensures PassOK(es, changes[..n], m, n, changing) && multiset(changes[..n]) == multiset(old(changes[..n]))
  {
    hide *;
    changing := false;
    PassStart(es, changes[..n], m);
    for i := 1 to n
      invariant PassOK(es, changes[..n], m, i, changing)
      invariant multiset(changes[..n]) == multiset(old(changes[..n]))
    {
      ghost var ps := changes[..n];
      PassRange(es, ps, m, i, changing);
      SwapTest(es, ps[i - 1], ps[i]);
      var p, q := changes[i - 1], changes[i];
      if q.addr < p.addr || (q.addr == p.addr && q.addr == es[q.entry].addrLow && p.addr != es[p.entry].addrLow) {
        PassSwap(es, ps, m, i, changing);
        Exchange(changes, n, i);
        changing := true;
      } else {
        PassKeep(es, ps, m, i, changing);
      }
    }
  }

  /** Neighbours are exchanged until a pass finds nothing to exchange. */
  method SortChanges(es: seq<Entry>, changes: array<Change>, n: nat)
    requires 0 < n <= changes.Length && InRange(es, changes[..n])
    modifies changes
    ensures InRange(es, changes[..n]) && Sorted(es, changes[..n])
    ensures multiset(changes[..n]) == multiset(old(changes[..n]))
  {
    hide *;
    ghost var m: nat := n;
    SettledNone(es, changes[..n]);
    var changing := true;
    while changing
      invariant m <= n && InRange(es, changes[..n]) && Settled(es, changes[..n], m)
      invariant !changing ==> Sorted(es, changes[..n])
      invariant multiset(changes[..n]) == multiset(old(changes[..n]))
      decreases m, if changing then 1 else 0
    {
      changing := SortPass(es, changes, n, m);
      PassRange(es, changes[..n], m, n, changing);
      PassDone(es, changes[..n], m, changing);
      if changing {
        m := m - 1;
      }
    }
  }

  lemma SettledNone(es: seq<Entry>, ps: seq<Change>)
    requires InRange(es, ps)
    ensures Settled(es, ps, |ps|)
  {
  }

  lemma PassRange(es: seq<Entry>, ps: seq<Change>, m: nat, i: nat, changing: bool)
    requires PassOK(es, ps, m, i, changing)
    ensures InRange(es, ps) && forall j :: 0 <= j < |ps| ==> ps[j].entry < |es|
    ensures Settled(es, ps, m) && (changing ==> m >= 2)
  {
  }

  // ----- the same changes in another order

  lemma {:induction false} Twice(ps: seq<Change>, p: Change)
    ensures multiset(ps)[p] >= 2 <==> exists j, k :: 0 <= j < k < |ps| && ps[j] == ps[k] == p
  {
    if ps != [] {
      var n := |ps| - 1;
      var front := ps[..n];
      assert ps == front + [ps[n]];
      Twice(front, p);
      if multiset(ps)[p] >= 2 && multiset(front)[p] < 2 {
        assert p in front;
        var j :| 0 <= j < |front| && front[j] == p;
        assert ps[j] == ps[n] == p;
      }
      if multiset(front)[p] >= 2 {
        var j, k :| 0 <= j < k < |front| && front[j] == front[k] == p;
        assert ps[j] == ps[k] == p;
      }
      if j, k :| 0 <= j < k < |ps| && ps[j] == ps[k] == p {
        if k < n {
          assert front[j] == front[k] == p;
        } else {
          assert front[j] == p && p in multiset(front);
        }
      }
    }
  }

  lemma ChangesPermuted(es: seq<Entry>, ps: seq<Change>, qs: seq<Change>)
    requires ChangesOK(es, ps) && multiset(qs) == multiset(ps)
    ensures ChangesOK(es, qs)
  {
    forall p
      ensures p in qs <==> p in ps
    {
      assert p in qs <==> p in multiset(qs);
      assert p in ps <==> p in multiset(ps);
    }
    forall j | 0 <= j < |qs|
      ensures qs[j] in ps
    {
      assert qs[j] in qs;
    }
    forall j, k | 0 <= j < k < |qs| && qs[j] == qs[k]
      ensures Empty(es[qs[j].entry])
    {
      Twice(qs, qs[j]);
      Twice(ps, qs[j]);
    }
  }

  // ----- the sweep

  lemma ChangeFacts(es: seq<Entry>, ps: seq<Change>, i: nat, a: int, over: seq<nat>, out: seq<Region>, lastAddr: int,
                    lastType: int)
    requires SweepOK(es, ps, i, a, over, out, lastAddr, lastType) && i < |ps|
    ensures ps[i].entry < |es| && a <= ps[i].addr && Reached(ps, i, ps[i].addr) && SortedOK(es, ps)
    ensures |over| <= i && |out| + (if lastType != 0 then 1 else 0) <= i && lastType >= 0
    ensures lastType != 0 ==> lastAddr <= a
    ensures IsMax(es, over, lastType)
    ensures forall e :: e in over ==> e < |es|
  {
    ReachedNext(es, ps, i, a);
    hide HereOK, Reached;
  }

  lemma ReachedNext(es: seq<Entry>, ps: seq<Change>, i: nat, a: int)
    requires SortedOK(es, ps) && Reached(ps, i, a) && i < |ps|
    ensures a <= ps[i].addr && Reached(ps, i, ps[i].addr)
  {
    forall j | 0 <= j < i
      ensures ps[j].addr <= ps[i].addr
    {
    }
    forall j | i <= j < |ps|
      ensures ps[i].addr <= ps[j].addr
    {
      SortedAfter(es, ps, i, j);
    }
  }

  /** Where an entry that ends is among the open ones. */
  lemma EntryThere(es: seq<Entry>, ps: seq<Change>, i: nat, a: int, over: seq<nat>, out: seq<Region>, lastAddr: int,
                   lastType: int)
    requires SweepOK(es, ps, i, a, over, out, lastAddr, lastType) && i < |ps| && ps[i].addr == a && !IsStart(es, ps[i])
    ensures ps[i].entry in over
  {
    OpenEnd(es, ps, i, a);
    hide Open, HereOK, OutOK;
  }

  /** The entry is taken out of the open ones: the last of them moves to its place. */
  method RemoveEntry(overlap: array<nat>, count: nat, entry: nat) returns (ghost k: nat)
    requires 0 < count <= overlap.Length && entry in overlap[..count]
    modifies overlap
    ensures k < count && old(overlap[k]) == entry && overlap[..count - 1] == Removed(old(overlap[..count]), k)
  {
    k := 0;
    for j := 0 to count
      invariant entry !in overlap[..j] && overlap[..] == old(overlap[..])
    {
      if overlap[j] == entry {
        k := j;
        overlap[j] := overlap[count - 1];
        assert overlap[..count - 1] == Removed(old(overlap[..count]), j);
        return;
      }
    }
    assert false;
  }

  /** The overruling type of the open entries. */
  method HighestType(es: seq<Entry>, overlap: array<nat>, count: nat) returns (t: nat)
    requires count <= overlap.Length && forall k :: 0 <= k < count ==> overlap[k] < |es|
    ensures IsMax(es, overlap[..count], t)
  {
    t := 0;
    for j := 0 to count
      invariant forall k :: 0 <= k < j ==> es[overlap[k]].kind <= t
      invariant t == 0 || exists k :: 0 <= k < count && es[overlap[k]].kind == t
    {
      if es[overlap[j]].kind > t {
        t := es[overlap[j]].kind;
      }
    }
    ghost var over := overlap[..count];
    if k :| 0 <= k < count && es[overlap[k]].kind == t {
      assert es[over[k]].kind == t;
    }
  }

  /** A change: its entry joins or leaves the open ones, and the type is determined anew. */
  method UpdateOverlap(es: seq<Entry>, ghost ps: seq<Change>, ghost i: nat, change: Change, overlap: array<nat>, count: nat,
                       ghost out: seq<Region>, ghost lastAddr: int, ghost lastType: int)
    returns (count': nat, t: nat)
    requires count < overlap.Length && i < |ps| && ps[i] == change
    requires SweepOK(es, ps, i, change.addr, overlap[..count], out, lastAddr, lastType)
    modifies overlap
    ensures count' <= overlap.Length && count' <= i + 1
    ensures change.entry < |es| && (IsStart(es, change) ==> t >= Before(es, change.addr))
    ensures lastType != Before(es, change.addr) ==> t != Before(es, change.addr)
    ensures var over' := overlap[..count'];
            && OverOK(es, ps, i + 1, over') && IsMax(es, over', t)
            && forall e :: e in over' ==> e in old(overlap[..count]) || (e < |es| && es[e].addrLow == change.addr)
  {
    hide *;
    ghost var over, a := overlap[..count], change.addr;
    SweepFacts(es, ps, i, a, over, out, lastAddr, lastType);
    StartIs(es, change);
    ghost var k := 0;
    if change.addr == es[change.entry].addrLow {
      OverStart(es, ps, i, a, over);
      overlap[count] := change.entry;
      count' := count + 1;
      assert overlap[..count'] == over + [change.entry];
    } else {
      EntryThere(es, ps, i, a, over, out, lastAddr, lastType);
      k := RemoveEntry(overlap, count, change.entry);
      OverEnd(es, ps, i, a, over, k);
      RemovedIs(over, k);
      count' := count - 1;
    }
    OverRange(es, ps, i + 1, overlap[..count']);
    t := HighestType(es, overlap, count');
    if change.addr == es[change.entry].addrLow {
      TypeStart(es, ps, i, a, over, out, lastAddr, lastType, t);
    } else {
      TypeEnd(es, ps, i, a, over, out, lastAddr, lastType, k, t);
    }
  }

  lemma SweepFacts(es: seq<Entry>, ps: seq<Change>, i: nat, a: int, over: seq<nat>, out: seq<Region>, lastAddr: int,
                   lastType: int)
    requires SweepOK(es, ps, i, a, over, out, lastAddr, lastType) && i < |ps|
    ensures SortedOK(es, ps) && Reached(ps, i, a) && OverOK(es, ps, i, over) && ps[i].entry < |es| && |over| <= i
  {
    hide HereOK, OutOK, OverOK;
  }

  lemma StartIs(es: seq<Entry>, p: Change)
    requires p.entry < |es|
    ensures IsStart(es, p) <==> p.addr == es[p.entry].addrLow
  {
  }

  lemma OverRange(es: seq<Entry>, ps: seq<Change>, i: nat, over: seq<nat>)
    requires i <= |ps| && OverOK(es, ps, i, over)
    ensures forall k :: 0 <= k < |over| ==> over[k] < |es|
  {
    hide Open;
    assert forall k :: 0 <= k < |over| ==> over[k] in over;
  }

  /** The region that has been begun, in the array already. */
  ghost predicate Begun(mmap: seq<Region>, size: nat, lastAddr: int, lastType: int) {
    lastType != 0 ==> size < |mmap| && mmap[size].address == lastAddr && mmap[size].kind == lastType
  }

  /** The type has changed: the region that was begun ends here, and the next one begins. */
  method UpdateMap(mmap: array<Region>, size: nat, a: nat, lastAddr: int, lastType: int, t: nat)
    returns (size': nat, lastAddr': int, truncated: bool)
    requires mmap.Length == MAX_MAP && size < MAX_MAP - (if lastType != 0 then 1 else 0)
    requires Begun(mmap[..], size, lastAddr, lastType)
    modifies mmap
    ensures !truncated && size' <= size + (if lastType != 0 then 1 else 0)
    ensures mmap[..size'] == OutAfter(old(mmap[..size]), lastAddr, lastType, a)
    ensures lastAddr' == (if t != 0 then a else lastAddr) && Begun(mmap[..], size', lastAddr', t)
  {
    size', lastAddr', truncated := size, lastAddr, false;
    if lastType != 0 {
      mmap[size'] := mmap[size'].(size := a - lastAddr);
      if mmap[size'].size != 0 {
        size' := size' + 1;
        if size' >= MAX_MAP {
          truncated := true;
          return;
        }
      }
    }
    if t != 0 {
      mmap[size'] := mmap[size'].(address := a, kind := t);
      lastAddr' := a;
    }
  }

  lemma SweepStart(es: seq<Entry>, ps: seq<Change>)
    requires SortedOK(es, ps)
    ensures SweepOK(es, ps, 0, 0, [], [], 0, 0)
  {
    assert ps[..0] == [];
  }

  lemma BegunNot(mmap: seq<Region>, size: nat, lastAddr: int)
    ensures Begun(mmap, size, lastAddr, 0)
  {
  }

  lemma AddrBound(addr: Word)
    ensures 0 <= addr <= TOP && MAX_MAP > 0
  {
  }

  /** The sweep itself: one change after the other.  The map is never full. */
  method SweepChanges(es: seq<Entry>, changes: array<Change>, n: nat, mmap: array<Region>)
    returns (size: nat, truncated: bool, ghost end: int)
    requires n <= MAX_MAP && n <= changes.Length && SortedOK(es, changes[..n]) && mmap.Length == MAX_MAP
    modifies mmap
    ensures !truncated && size <= MAX_MAP && Result(es, mmap[..size], end)
  {
    hide *;
    ghost var ps := changes[..n];
    AddrBound(0);
    var overlap := new nat[MAX_MAP];
    var overlapCount, lastAddr, lastType, i := 0, 0, 0, 0;
    ghost var a := 0;
    size, truncated := 0, false;
    SweepStart(es, ps);
    BegunNot(mmap[..], 0, 0);
    assert overlap[..0] == [] && mmap[..0] == [];
    while i < n
      invariant 0 <= i <= n && overlapCount <= i && size <= i && !truncated && 0 <= a <= TOP
      invariant changes[..n] == ps && fresh(overlap)
      invariant SweepOK(es, ps, i, a, overlap[..overlapCount], mmap[..size], lastAddr, lastType)
      invariant Begun(mmap[..], size, lastAddr, lastType)
    {
      ghost var over, out := overlap[..overlapCount], mmap[..size];
      var change := changes[i];
      ChangeFacts(es, ps, i, a, over, out, lastAddr, lastType);
      Advance(es, ps, i, a, change.addr, over, out, lastAddr, lastType);
      AddrBound(change.addr);
      a := change.addr;
      var curType;
      overlapCount, curType := UpdateOverlap(es, ps, i, change, overlap, overlapCount, out, lastAddr, lastType);
      if curType != lastType {
        StepChange(es, ps, i, a, over, overlap[..overlapCount], out, lastAddr, lastType, curType);
        size, lastAddr, truncated := UpdateMap(mmap, size, change.addr, lastAddr, lastType, curType);
        if truncated {
          break;
        }
        lastType := curType;
      } else {
        StepSame(es, ps, i, a, over, overlap[..overlapCount], out, lastAddr, lastType);
      }
      i := i + 1;
    }
    SweepResult(es, ps, a, overlap[..overlapCount], mmap[..size], lastAddr, lastType);
    end := if lastType != 0 then lastAddr else 0;
  }

  /** The kernel's own memory, as an entry of the highest type. */
  function KernelEntry(kernelStart: Word, kernelEnd: Word): Entry
    requires kernelStart < kernelEnd
  {
    Entry(kernelStart, 0, kernelEnd - kernelStart, 0, KERNEL)
  }

  lemma Collected(bootmap: seq<Entry>, kernelStart: Word, kernelEnd: Word)
    requires kernelStart < kernelEnd
    ensures var es := bootmap + [KernelEntry(kernelStart, kernelEnd)];
            && ChangesOf(es) == ChangesOf(bootmap) + [Change(kernelStart, |bootmap|)] + [Change(kernelEnd, |bootmap|)]
            && ChangesOK(es, ChangesOf(es)) && |ChangesOf(es)| == 2 * KeptCount(bootmap) + 2
  {
    hide *;
    var e := KernelEntry(kernelStart, kernelEnd);
    KernelKept(kernelStart, kernelEnd);
    ChangesSnoc(bootmap, e);
    ChangesAreOK(bootmap + [e]);
  }

  lemma KernelKept(kernelStart: Word, kernelEnd: Word)
    requires kernelStart < kernelEnd
    ensures var e := KernelEntry(kernelStart, kernelEnd); Kept(e) && e.addrLow == kernelStart && EndOf(e) == kernelEnd
  {
  }

  lemma ChangesRange(es: seq<Entry>, ps: seq<Change>)
    requires ChangesOK(es, ps)
    ensures InRange(es, ps) && (Sorted(es, ps) ==> SortedOK(es, ps))
  {
  }

  /** get_mmap: more than 64 entries make the kernel stop.  Otherwise the regions are sorted, disjoint, not empty and
      merged; they give each address the highest type of the entries that cover it, the kernel's type being higher
      than all others, exactly when the empty entries are harmless. */
  method GetMmap(bootmap: seq<Entry>, kernelStart: Word, kernelEnd: Word, mmap: array<Region>)
    returns (panicked: bool, size: nat)
    requires mmap.Length == MAX_MAP && kernelStart < kernelEnd
    modifies mmap
    ensures panicked <==> 2 * KeptCount(bootmap) > MAX_BOOT
    ensures !panicked ==> size <= MAX_MAP && RegionsOK(mmap[..size])
    ensures !panicked ==> var es := bootmap + [KernelEntry(kernelStart, kernelEnd)];
                          && (Faithful(es, mmap[..size]) <==> Harmless(es)) && Shows(es, mmap[..size])
                          && exists end :: Result(es, mmap[..size], end)
  {
    hide *;
    var es := bootmap + [KernelEntry(kernelStart, kernelEnd)];
    Limits();
    Collected(bootmap, kernelStart, kernelEnd);
    var list := new Change[2 * MAX_MAP];
    var count;
    panicked, count := Collect(bootmap, list);
    size := 0;
    if panicked {
      return;
    }
    list[count] := Change(kernelStart, |bootmap|);
    list[count + 1] := Change(kernelEnd, |bootmap|);
    count := count + 2;
    assert list[..count] == ChangesOf(es);
    ChangesRange(es, list[..count]);
    ghost var found := list[..count];
    SortChanges(es, list, count);
    ChangesPermuted(es, found, list[..count]);
    ChangesRange(es, list[..count]);
    var truncated;
    ghost var end;
    size, truncated, end := SweepChanges(es, list, count, mmap);
    FaithfulExact(es, mmap[..size], end);
    ResultShows(es, mmap[..size], end);
    ResultRegions(es, mmap[..size], end);
  }

  lemma ResultRegions(es: seq<Entry>, out: seq<Region>, end: int)
    requires Result(es, out, end)
    ensures RegionsOK(out)
  {
  }

  lemma Limits()
    ensures MAX_BOOT == 128 && MAX_MAP == 130
  {
  }
}
