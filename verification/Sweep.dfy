/** The sweep over the sorted changes that makes the regions: what it knows after each of them (main.c). */
module Sweep {
  import opened MemoryMap

  /** The type the regions give an address. */
  function OutType(out: seq<Region>, x: int): int {
    if out == [] then 0
    else
      var last := out[|out| - 1];
      if last.address <= x < last.address + last.size then last.kind else OutType(out[..|out| - 1], x)
  }

  /** The same with the region that has been begun and not ended. */
  function RunType(out: seq<Region>, lastType: int, lastAddr: int, x: int): int {
    if lastType != 0 && lastAddr <= x then lastType else OutType(out, x)
  }

  function Finish(r: Region): int {
    r.address + r.size
  }

  /** Sorted, disjoint, not empty, and with nothing to merge. */
  ghost predicate RegionsOK(out: seq<Region>) {
    && (forall k :: 0 <= k < |out| ==> out[k].size > 0 && out[k].kind > 0 && out[k].address >= 0)
    && (forall k, l :: 0 <= k < l < |out| ==> Finish(out[k]) <= out[l].address)
    && (forall k :: 0 < k < |out| && Finish(out[k - 1]) == out[k].address ==> out[k - 1].kind != out[k].kind)
  }

  /** The entries in over are the open ones; only an empty entry is there twice. */
  ghost predicate OverOK(es: seq<Entry>, ps: seq<Change>, i: nat, over: seq<nat>)
    requires i <= |ps|
  {
    && (forall e :: e in over ==> e < |es|)
    && (forall e: nat :: e < |es| ==> (e in over <==> Open(es, ps, i, e)))
    && (forall j, k :: 0 <= j < k < |over| && over[j] == over[k] ==> over[j] < |es| && Empty(es[over[j]]))
  }

  /** The sweep has come to address a, with i changes done. */
  ghost predicate Reached(ps: seq<Change>, i: nat, a: int) {
    && i <= |ps| && a >= 0
    && (forall j :: 0 <= j < i ==> ps[j].addr <= a)
    && (forall j :: i <= j < |ps| ==> a <= ps[j].addr)
  }

  /** The type just before an address. */
  ghost function Before(es: seq<Entry>, a: int): int {
    if a == 0 then 0 else Stretched(es, a - 1)
  }

  ghost predicate NoEndAt(es: seq<Entry>, ps: seq<Change>, i: nat, a: int)
    requires i <= |ps| && InRange(es, ps)
  {
    forall j :: 0 <= j < i && ps[j].addr == a ==> IsStart(es, ps[j])
  }

  /** What happened at address a itself: types go up with the starts, then down with the ends, and never come back to
      the one before. */
  ghost predicate HereOK(es: seq<Entry>, ps: seq<Change>, i: nat, a: int, over: seq<nat>, out: seq<Region>,
                         lastAddr: int, lastType: int)
    requires i <= |ps| && InRange(es, ps)
  {
    && (forall e :: e in over ==> e < |es| && (es[e].addrLow == a || es[e].kind <= Before(es, a)))
    && (NoEndAt(es, ps, i, a) ==> lastType >= Before(es, a))
    && (out != [] && Finish(out[|out| - 1]) == a ==>
          lastType != Before(es, a) && out[|out| - 1].kind == Before(es, a))
    && (lastType != 0 ==> if lastType == Before(es, a) then lastAddr < a else lastAddr == a)
  }

  /** The regions so far say what the entries do. */
  ghost predicate OutOK(es: seq<Entry>, a: int, out: seq<Region>, lastAddr: int, lastType: int) {
    && RegionsOK(out)
    && (forall x :: 0 <= x < a ==> RunType(out, lastType, lastAddr, x) == Stretched(es, x))
    && (lastType != 0 ==> 0 <= lastAddr <= a && (lastAddr > 0 ==> Stretched(es, lastAddr - 1) != lastType))
    && (out != [] ==> Finish(out[|out| - 1]) <= if lastType != 0 then lastAddr else a)
    && (out != [] && lastType != 0 && Finish(out[|out| - 1]) == lastAddr ==> out[|out| - 1].kind != lastType)
  }

  ghost predicate SweepOK(es: seq<Entry>, ps: seq<Change>, i: nat, a: int, over: seq<nat>, out: seq<Region>,
                          lastAddr: int, lastType: int) {
    && SortedOK(es, ps) && Reached(ps, i, a)
    && OverOK(es, ps, i, over) && IsMax(es, over, lastType)
    && HereOK(es, ps, i, a, over, out, lastAddr, lastType) && OutOK(es, a, out, lastAddr, lastType)
    && |out| + (if lastType != 0 then 1 else 0) <= i && |over| <= i
  }

  // ----- from one address to the next

  lemma GapType(es: seq<Entry>, ps: seq<Change>, i: nat, over: seq<nat>, t: int, x: int)
    requires SortedOK(es, ps) && i <= |ps| && OverOK(es, ps, i, over) && IsMax(es, over, t)
    requires forall j :: 0 <= j < i ==> ps[j].addr <= x
    requires forall j :: i <= j < |ps| ==> x < ps[j].addr
    ensures Stretched(es, x) == t
  {
    hide SortedOK, IsMax, Stretched, Open, Covers, Lingers;
    forall e: nat | e < |es|
      ensures e in over <==> Covers(es[e], x) || Lingers(es[e], x)
    {
      GapOpen(es, ps, i, x, e);
    }
    StretchedIs(es, x, over, t);
  }

  lemma Advance(es: seq<Entry>, ps: seq<Change>, i: nat, a: int, b: int, over: seq<nat>, out: seq<Region>,
                lastAddr: int, lastType: int)
    requires SweepOK(es, ps, i, a, over, out, lastAddr, lastType) && a <= b && Reached(ps, i, b)
    ensures SweepOK(es, ps, i, b, over, out, lastAddr, lastType)
  {
    hide SortedOK, OverOK, Stretched, IsMax, RegionsOK;
    if a < b {
      forall x | a <= x < b
        ensures Stretched(es, x) == lastType
      {
        GapType(es, ps, i, over, lastType, x);
      }
      RunOn(es, a, b, out, lastAddr, lastType);
      MaxBounds(es, over, lastType);
    }
  }

  lemma MaxBounds(es: seq<Entry>, over: seq<nat>, t: int)
    requires IsMax(es, over, t)
    ensures forall e :: e in over ==> e < |es| && es[e].kind <= t
    ensures t >= 0
  {
  }

  lemma RunOn(es: seq<Entry>, a: int, b: int, out: seq<Region>, lastAddr: int, lastType: int)
    requires OutOK(es, a, out, lastAddr, lastType) && a <= b
    requires forall x :: a <= x < b ==> Stretched(es, x) == lastType
    ensures OutOK(es, b, out, lastAddr, lastType)
  {
    hide Stretched;
    forall x | a <= x < b
      ensures RunType(out, lastType, lastAddr, x) == lastType
    {
      if lastType == 0 {
        OutNone(out, x);
      }
    }
  }

  lemma {:induction false} OutNone(out: seq<Region>, x: int)
    requires RegionsOK(out) && (out != [] ==> Finish(out[|out| - 1]) <= x)
    ensures OutType(out, x) == 0
  {
    if out != [] {
      var n := |out| - 1;
      if n > 0 {
        assert Finish(out[n - 1]) <= out[n].address;
      }
      OutNone(out[..n], x);
    }
  }

  // ----- one change

  lemma EndAfter(e: Entry)
    ensures EndOf(e) >= e.addrLow
  {
  }

  lemma PrefixMore(ps: seq<Change>, i: nat, p: Change)
    requires i < |ps|
    ensures p in ps[..i + 1] <==> p in ps[..i] || p == ps[i]
  {
    assert ps[..i + 1] == ps[..i] + [ps[i]];
  }

  lemma PrefixAddr(ps: seq<Change>, i: nat, a: int, p: Change)
    requires Reached(ps, i, a) && i < |ps| && ps[i].addr == a && p in ps[..i + 1]
    ensures p.addr <= a
  {
    PrefixMore(ps, i, p);
  }

  /** The opening of another entry changes nothing about this one. */
  lemma OpenOther(es: seq<Entry>, ps: seq<Change>, i: nat, f: nat)
    requires i < |ps| && f < |es| && ps[i].entry != f
    ensures Open(es, ps, i + 1, f) <==> Open(es, ps, i, f)
  {
    PrefixMore(ps, i, StartOf(es, f));
    PrefixMore(ps, i, EndChange(es, f));
  }

  lemma OpenStart(es: seq<Entry>, ps: seq<Change>, i: nat, a: int)
    requires SortedOK(es, ps) && Reached(ps, i, a) && i < |ps| && ps[i].addr == a && IsStart(es, ps[i])
    ensures Open(es, ps, i + 1, ps[i].entry)
    ensures Open(es, ps, i, ps[i].entry) ==> Empty(es[ps[i].entry])
  {
    var e := ps[i].entry;
    EndAfter(es[e]);
    PrefixMore(ps, i, StartOf(es, e));
    assert ps[i] == StartOf(es, e);
    if EndChange(es, e) in ps[..i + 1] {
      PrefixAddr(ps, i, a, EndChange(es, e));
    }
    if StartOf(es, e) in ps[..i] {
      var j :| 0 <= j < i && ps[..i][j] == StartOf(es, e);
      assert ps[j] == ps[i];
    }
  }

  /** A start: the entry joins the open ones. */
  lemma OverStart(es: seq<Entry>, ps: seq<Change>, i: nat, a: int, over: seq<nat>)
    requires SortedOK(es, ps) && Reached(ps, i, a) && i < |ps| && ps[i].addr == a && IsStart(es, ps[i])
    requires OverOK(es, ps, i, over)
    ensures OverOK(es, ps, i + 1, over + [ps[i].entry])
  {
    hide Open, Reached, Empty;
    var e := ps[i].entry;
    OpenStart(es, ps, i, a);
    forall f: nat | f < |es|
      ensures f in over + [e] <==> Open(es, ps, i + 1, f)
    {
      if f != e {
        OpenOther(es, ps, i, f);
      }
    }
  }

  lemma OpenEnd(es: seq<Entry>, ps: seq<Change>, i: nat, a: int)
    requires SortedOK(es, ps) && Reached(ps, i, a) && i < |ps| && ps[i].addr == a && !IsStart(es, ps[i])
    ensures !Open(es, ps, i + 1, ps[i].entry) && Open(es, ps, i, ps[i].entry) && !Empty(es[ps[i].entry])
    ensures es[ps[i].entry].addrLow < a
  {
    var e := ps[i].entry;
    EndAfter(es[e]);
    assert ps[i] == EndChange(es, e);
    PrefixMore(ps, i, EndChange(es, e));
    if EndChange(es, e) in ps[..i] {
      var j :| 0 <= j < i && ps[..i][j] == EndChange(es, e);
      assert ps[j] == ps[i];
    }
    var j :| 0 <= j < |ps| && ps[j] == StartOf(es, e);
    SortedAfter(es, ps, i, j);
    if j < i {
      assert ps[..i][j] == StartOf(es, e);
    }
  }

  lemma SortedAfter(es: seq<Entry>, ps: seq<Change>, i: nat, j: nat)
    requires SortedOK(es, ps) && i < |ps| && j < |ps|
    ensures i < j ==> ps[i].addr <= ps[j].addr
  {
  }

  /** The open entries without the one at k, as the code takes it out: the last one moves there. */
  function Removed(over: seq<nat>, k: nat): seq<nat>
    requires k < |over|
  {
    over[k := over[|over| - 1]][..|over| - 1]
  }

  lemma RemovedIs(over: seq<nat>, k: nat)
    requires k < |over|
    ensures forall f :: f in Removed(over, k) ==> f in over
    ensures forall f :: f in over && f != over[k] ==> f in Removed(over, k)
    ensures (forall j :: 0 <= j < |over| && over[j] == over[k] ==> j == k) ==> over[k] !in Removed(over, k)
    ensures forall j, l :: 0 <= j < l < |Removed(over, k)| && Removed(over, k)[j] == Removed(over, k)[l] ==>
              exists m, n :: 0 <= m < n < |over| && over[m] == over[n] == Removed(over, k)[j]
  {
    var n := |over| - 1;
    forall f | f in over && f != over[k]
      ensures f in Removed(over, k)
    {
      var j :| 0 <= j < |over| && over[j] == f;
      assert Removed(over, k)[if j == n then k else j] == f;
    }
    forall j, l | 0 <= j < l < |Removed(over, k)| && Removed(over, k)[j] == Removed(over, k)[l]
      ensures exists m, n :: 0 <= m < n < |over| && over[m] == over[n] == Removed(over, k)[j]
    {
      if j == k {
        assert over[l] == over[n];
      } else if l == k {
        assert over[j] == over[n];
      } else {
        assert over[j] == over[l];
      }
    }
  }

  /** An end: the entry leaves the open ones. */
  lemma OverEnd(es: seq<Entry>, ps: seq<Change>, i: nat, a: int, over: seq<nat>, k: nat)
    requires SortedOK(es, ps) && Reached(ps, i, a) && i < |ps| && ps[i].addr == a && !IsStart(es, ps[i])
    requires OverOK(es, ps, i, over) && k < |over| && over[k] == ps[i].entry
    ensures OverOK(es, ps, i + 1, Removed(over, k))
  {
    hide Open, Reached, Empty, Removed;
    var e := ps[i].entry;
    OpenEnd(es, ps, i, a);
    RemovedIs(over, k);
    forall f: nat | f < |es|
      ensures f in Removed(over, k) <==> Open(es, ps, i + 1, f)
    {
      if f != e {
        OpenOther(es, ps, i, f);
      }
    }
  }

  /** Types at one address: once the type has left the one before, it does not come back. */
  lemma TypeStart(es: seq<Entry>, ps: seq<Change>, i: nat, a: int, over: seq<nat>, out: seq<Region>, lastAddr: int,
                  lastType: int, t: int)
    requires SweepOK(es, ps, i, a, over, out, lastAddr, lastType) && i < |ps| && ps[i].addr == a && IsStart(es, ps[i])
    requires IsMax(es, over + [ps[i].entry], t)
    ensures t >= Before(es, a) && (lastType != Before(es, a) ==> t != Before(es, a))
  {
    hide OverOK, OutOK, Before, ChangesOK;
    forall j | 0 <= j < i && ps[j].addr == a
      ensures IsStart(es, ps[j])
    {
      KeyAddr(es, ps[j], ps[i]);
    }
    MaxMore(es, over, over + [ps[i].entry], lastType, t);
  }

  lemma MaxMore(es: seq<Entry>, over: seq<nat>, over': seq<nat>, t: int, t': int)
    requires IsMax(es, over, t) && IsMax(es, over', t')
    requires forall e :: e in over ==> e in over'
    ensures t <= t'
  {
    if t != 0 {
      var k :| 0 <= k < |over| && es[over[k]].kind == t;
      assert over[k] in over';
    }
  }

  lemma TypeEnd(es: seq<Entry>, ps: seq<Change>, i: nat, a: int, over: seq<nat>, out: seq<Region>, lastAddr: int,
                lastType: int, k: nat, t: int)
    requires SweepOK(es, ps, i, a, over, out, lastAddr, lastType) && i < |ps| && ps[i].addr == a && !IsStart(es, ps[i])
    requires k < |over| && over[k] == ps[i].entry && IsMax(es, Removed(over, k), t)
    ensures t <= lastType && (lastType != Before(es, a) ==> t != Before(es, a))
  {
    hide OverOK, OutOK, Before, ChangesOK, Removed, Sorted;
    RemovedIs(over, k);
    MaxMore(es, Removed(over, k), over, t, lastType);
    OpenEnd(es, ps, i, a);
    if lastType > Before(es, a) && lastType != 0 {
      var m :| 0 <= m < |over| && es[over[m]].kind == lastType;
      assert over[m] in over;
      assert over[m] in Removed(over, k);
      MaxBounds(es, Removed(over, k), t);
    }
    BeforeNat(es, a);
  }

  lemma BeforeNat(es: seq<Entry>, a: int)
    ensures Before(es, a) >= 0
  {
  }

  /** What the code does when the type has changed. */
  function OutAfter(out: seq<Region>, lastAddr: int, lastType: int, a: int): seq<Region> {
    if lastType != 0 && a - lastAddr != 0 then out + [Region(lastAddr, a - lastAddr, lastType)] else out
  }

  lemma Closed(es: seq<Entry>, a: int, out: seq<Region>, lastAddr: int, lastType: int)
    requires OutOK(es, a, out, lastAddr, lastType) && lastType >= 0 && a >= 0
    ensures var out' := OutAfter(out, lastAddr, lastType, a);
            && RegionsOK(out') && (forall x :: 0 <= x < a ==> OutType(out', x) == Stretched(es, x))
            && (out' != [] ==> Finish(out'[|out'| - 1]) <= a)
  {
    hide Stretched;
    var out' := OutAfter(out, lastAddr, lastType, a);
    if lastType != 0 && a - lastAddr != 0 {
      assert out'[..|out'| - 1] == out;
      forall k | 0 <= k < |out|
        ensures out'[k] == out[k]
      {
      }
      forall x | 0 <= x < a
        ensures OutType(out', x) == RunType(out, lastType, lastAddr, x)
      {
      }
    }
  }

  lemma StepChange(es: seq<Entry>, ps: seq<Change>, i: nat, a: int, over: seq<nat>, over': seq<nat>, out: seq<Region>,
                   lastAddr: int, lastType: int, t: int)
    requires SweepOK(es, ps, i, a, over, out, lastAddr, lastType) && i < |ps| && ps[i].addr == a
    requires OverOK(es, ps, i + 1, over') && IsMax(es, over', t) && t != lastType && |over'| <= i + 1
    requires forall e :: e in over' ==> e in over || (e < |es| && es[e].addrLow == a)
    requires lastType != Before(es, a) ==> t != Before(es, a)
    requires IsStart(es, ps[i]) ==> t >= Before(es, a)
    ensures SweepOK(es, ps, i + 1, a, over', OutAfter(out, lastAddr, lastType, a), if t != 0 then a else lastAddr, t)
  {
    hide SortedOK, OverOK, RegionsOK, Stretched, OutType, Before;
    MaxBounds(es, over', t);
    MaxBounds(es, over, lastType);
    Closed(es, a, out, lastAddr, lastType);
    BeforeIs(es, a);
    SortedRange(es, ps);
    NoEndMore(es, ps, i, a);
    StillReached(ps, i, a);
  }

  lemma BeforeIs(es: seq<Entry>, a: int)
    ensures a > 0 ==> Before(es, a) == Stretched(es, a - 1)
  {
  }

  lemma SortedRange(es: seq<Entry>, ps: seq<Change>)
    requires SortedOK(es, ps)
    ensures InRange(es, ps)
  {
  }

  lemma NoEndMore(es: seq<Entry>, ps: seq<Change>, i: nat, a: int)
    requires i < |ps| && ps[i].addr == a && InRange(es, ps)
    ensures NoEndAt(es, ps, i + 1, a) ==> IsStart(es, ps[i]) && NoEndAt(es, ps, i, a)
  {
  }

  lemma StillReached(ps: seq<Change>, i: nat, a: int)
    requires Reached(ps, i, a) && i < |ps| && ps[i].addr == a
    ensures Reached(ps, i + 1, a)
  {
  }

  lemma StepSame(es: seq<Entry>, ps: seq<Change>, i: nat, a: int, over: seq<nat>, over': seq<nat>, out: seq<Region>,
                 lastAddr: int, lastType: int)
    requires SweepOK(es, ps, i, a, over, out, lastAddr, lastType) && i < |ps| && ps[i].addr == a
    requires OverOK(es, ps, i + 1, over') && IsMax(es, over', lastType) && |over'| <= i + 1
    requires forall e :: e in over' ==> e in over || (e < |es| && es[e].addrLow == a)
    requires IsStart(es, ps[i]) ==> lastType >= Before(es, a)
    ensures SweepOK(es, ps, i + 1, a, over', out, lastAddr, lastType)
  {
    hide SortedOK, OverOK, OutOK, Before, IsMax;
    SortedRange(es, ps);
    NoEndMore(es, ps, i, a);
    StillReached(ps, i, a);
  }

  // ----- the result

  /** The highest type of all empty entries. */
  function LeftOver(es: seq<Entry>): int {
    LingerAt(es, TOP)
  }

  /** The regions in the end: what the entries say, empty ones never ending; a region that is not ended is missing. */
  ghost predicate Result(es: seq<Entry>, out: seq<Region>, lastAddr: int) {
    && RegionsOK(out) && lastAddr >= 0
    && (forall x :: x >= 0 ==>
          OutType(out, x) == if LeftOver(es) != 0 && x >= lastAddr then 0 else Stretched(es, x))
    && (LeftOver(es) != 0 ==>
          && (forall x :: x >= lastAddr ==> Stretched(es, x) == LeftOver(es))
          && (lastAddr > 0 ==> Stretched(es, lastAddr - 1) != LeftOver(es)))
  }

  lemma {:induction false} NothingAtTop(es: seq<Entry>, x: int)
    requires x >= TOP
    ensures TypeAt(es, x) == 0
  {
    if es != [] {
      NothingAtTop(es[..|es| - 1], x);
    }
  }

  lemma SweepResult(es: seq<Entry>, ps: seq<Change>, a: int, over: seq<nat>, out: seq<Region>, lastAddr: int, lastType: int)
    requires SweepOK(es, ps, |ps|, a, over, out, lastAddr, lastType) && a <= TOP
    ensures Result(es, out, if lastType != 0 then lastAddr else 0)
  {
    hide SortedOK, OverOK, RegionsOK, IsMax, HereOK, OutType, TypeAt, LingerAt;
    forall x | x >= a
      ensures Stretched(es, x) == lastType
    {
      GapType(es, ps, |ps|, over, lastType, x);
    }
    NothingAtTop(es, TOP);
    assert Stretched(es, TOP) == lastType;
    forall x | x >= a || (lastType != 0 && x >= lastAddr)
      ensures OutType(out, x) == 0
    {
      OutNone(out, x);
    }
  }

  /** From x on there is nothing but the left-over type: the last region, which is not ended. */
  ghost predicate Tail(es: seq<Entry>, x: int) {
    LeftOver(es) != 0 && forall y :: y >= x ==> Stretched(es, y) == LeftOver(es)
  }

  /** The type that the kernel takes an address to have. */
  ghost function SeenType(es: seq<Entry>, x: int): int {
    if Tail(es, x) then 0 else Stretched(es, x)
  }

  ghost predicate Shows(es: seq<Entry>, out: seq<Region>) {
    forall x :: x >= 0 ==> OutType(out, x) == SeenType(es, x)
  }

  lemma ResultShows(es: seq<Entry>, out: seq<Region>, lastAddr: int)
    requires Result(es, out, lastAddr)
    ensures Shows(es, out)
  {
    hide RegionsOK, OutType, TypeAt, LingerAt, Stretched;
    forall x | x >= 0
      ensures OutType(out, x) == SeenType(es, x)
    {
      if LeftOver(es) != 0 && x < lastAddr {
        assert Stretched(es, lastAddr - 1) != LeftOver(es);
      }
    }
  }

  /** When the empty entries are harmless that is the type it has. */
  lemma SeenIsType(es: seq<Entry>, x: int)
    requires Harmless(es) && x >= 0
    ensures SeenType(es, x) == TypeAt(es, x)
  {
    hide TypeAt, LingerAt;
    LeftOverPositive(es);
    if LeftOver(es) == 0 {
      LingerGrows(es, x, x + TOP);
      LingerTop(es, x + TOP);
    } else {
      var b :| HarmlessFrom(es, b);
      if x < b {
        assert Stretched(es, b - 1) == TypeAt(es, b - 1);
      } else {
        assert forall y :: y >= x ==> Stretched(es, y) == LeftOver(es);
      }
    }
  }

  /** A type is never taken for a lower one, except for none. */
  lemma SeenBounds(es: seq<Entry>, x: int)
    ensures SeenType(es, x) == 0 || SeenType(es, x) >= TypeAt(es, x)
  {
    hide TypeAt, LingerAt, Tail;
  }

  /** There is nothing behind the last byte. */
  lemma SeenAtTop(es: seq<Entry>, x: int)
    requires x >= TOP
    ensures SeenType(es, x) == 0
  {
    hide TypeAt, LingerAt;
    forall y | y >= x
      ensures Stretched(es, y) == LeftOver(es)
    {
      NothingAtTop(es, y);
      LingerTop(es, y);
      LeftOverPositive(es);
    }
  }

  /** When empty entries do no harm: there are none that have a type; or there is an address up to which they have no
      higher types than the entries that cover it, and after which there is nothing else, not even another type of
      theirs, where the type changes. */
  ghost predicate Harmless(es: seq<Entry>) {
    LeftOver(es) == 0 || exists b :: HarmlessFrom(es, b)
  }

  ghost predicate HarmlessFrom(es: seq<Entry>, b: int) {
    && b >= 0
    && (forall x :: 0 <= x < b ==> LingerAt(es, x) <= TypeAt(es, x))
    && (forall x :: x >= b ==> TypeAt(es, x) == 0 && LingerAt(es, x) == LeftOver(es))
    && (b > 0 ==> TypeAt(es, b - 1) != LeftOver(es))
  }

  /** Every address has its type. */
  ghost predicate Faithful(es: seq<Entry>, out: seq<Region>) {
    forall x :: x >= 0 ==> OutType(out, x) == TypeAt(es, x)
  }

  lemma {:induction false} LingerGrows(es: seq<Entry>, x: int, y: int)
    requires x <= y
    ensures LingerAt(es, x) <= LingerAt(es, y)
  {
    if es != [] {
      LingerGrows(es[..|es| - 1], x, y);
    }
  }

  lemma {:induction false} LingerTop(es: seq<Entry>, x: int)
    requires x >= TOP
    ensures LingerAt(es, x) == LeftOver(es)
  {
    if es != [] {
      LingerTop(es[..|es| - 1], x);
    }
  }

  /** The regions are right exactly when the empty entries are harmless. */
  lemma FaithfulExact(es: seq<Entry>, out: seq<Region>, lastAddr: int)
    requires Result(es, out, lastAddr)
    ensures Faithful(es, out) <==> Harmless(es)
  {
    hide RegionsOK, OutType, TypeAt, LingerAt;
    if LeftOver(es) == 0 {
      forall x | x >= 0
        ensures Stretched(es, x) == TypeAt(es, x)
      {
        LingerGrows(es, x, x + TOP);
        LingerTop(es, x + TOP);
      }
    } else {
      LeftOverPositive(es);
      if Faithful(es, out) {
        FaithfulFrom(es, out, lastAddr);
      }
      if b :| HarmlessFrom(es, b) {
        FromFaithful(es, out, lastAddr, b);
      }
    }
  }

  lemma LeftOverPositive(es: seq<Entry>)
    ensures LeftOver(es) >= 0
  {
  }

  lemma FaithfulFrom(es: seq<Entry>, out: seq<Region>, lastAddr: int)
    requires Result(es, out, lastAddr) && LeftOver(es) > 0 && Faithful(es, out)
    ensures HarmlessFrom(es, lastAddr)
  {
    hide RegionsOK, OutType, TypeAt, LingerAt;
    forall x | x >= 0
      ensures x < lastAddr ==> LingerAt(es, x) <= TypeAt(es, x) && Stretched(es, x) == TypeAt(es, x)
      ensures x >= lastAddr ==> TypeAt(es, x) == 0 && LingerAt(es, x) == LeftOver(es)
    {
      assert OutType(out, x) == TypeAt(es, x);
      assert x >= lastAddr ==> Stretched(es, x) == LeftOver(es);
    }
  }

  lemma FromFaithful(es: seq<Entry>, out: seq<Region>, lastAddr: int, b: int)
    requires Result(es, out, lastAddr) && LeftOver(es) > 0 && HarmlessFrom(es, b)
    ensures Faithful(es, out)
  {
    hide RegionsOK, OutType, TypeAt, LingerAt;
    assert b > 0 ==> (b - 1 >= lastAddr ==> Stretched(es, b - 1) == LeftOver(es));
    assert lastAddr > 0 ==> (lastAddr - 1 >= b ==> Stretched(es, lastAddr - 1) == LeftOver(es));
    assert b == lastAddr;
    forall x | x >= 0
      ensures OutType(out, x) == TypeAt(es, x)
    {
    }
  }

  /** Without typed empty entries all is well. */
  lemma {:induction false} NoneEmpty(es: seq<Entry>)
    requires forall e :: 0 <= e < |es| && Kept(es[e]) && Empty(es[e]) ==> es[e].kind == 0
    ensures Harmless(es)
  {
    LingerNone(es, TOP);
  }

  lemma {:induction false} LingerNone(es: seq<Entry>, x: int)
    requires forall e :: 0 <= e < |es| && Kept(es[e]) && Empty(es[e]) ==> es[e].kind == 0
    ensures LingerAt(es, x) == 0
  {
    if es != [] {
      LingerNone(es[..|es| - 1], x);
    }
  }

  /** An empty reserved entry inside of free memory: from there on memory is not free any more. */
  lemma EmptyEntryHarms(kernel: Entry)
    requires kernel.addrHigh == 0 && kernel.addrLow == 0x10_0000 && kernel.lenLow == 0x1_0000 && kernel.lenHigh == 0
    ensures var es := [Entry(0, 0, 0x100_0000, 0, FREE), Entry(0x1000, 0, 0, 0, 2), kernel];
            !Harmless(es) && TypeAt(es, 0x2000) == FREE
  {
    var e0, e1 := Entry(0, 0, 0x100_0000, 0, FREE), Entry(0x1000, 0, 0, 0, 2);
    var es := [e0, e1, kernel];
    assert es[..2] == [e0, e1] && es[..2][..1] == [e0] && [e0][..0] == [];
    assert TypeAt([e0], 0x2000) == FREE && TypeAt([e0, e1], 0x2000) == FREE;
    LingersBehind(kernel, 0x2000);
    LingersBehind(kernel, TOP);
  }

  lemma LingersBehind(kernel: Entry, x: int)
    requires kernel.addrHigh == 0 && kernel.addrLow == 0x10_0000 && kernel.lenLow == 0x1_0000 && kernel.lenHigh == 0 && x >= 0x2000
    ensures LingerAt([Entry(0, 0, 0x100_0000, 0, FREE), Entry(0x1000, 0, 0, 0, 2), kernel], x) == 2
  {
    var e0, e1 := Entry(0, 0, 0x100_0000, 0, FREE), Entry(0x1000, 0, 0, 0, 2);
    var es := [e0, e1, kernel];
    assert es[..2] == [e0, e1] && es[..2][..1] == [e0] && [e0][..0] == [];
    assert LingerAt([], x) == 0 && LingerAt([e0], x) == 0;
    assert LingerAt([e0, e1], x) == 2;
  }
}
