/** The boot loader's memory map, what it says about each address, and the regions it is turned into (main.c). */
module MemoryMap {
  type Word = x: int | 0 <= x < 0x1_0000_0000 witness 0

  const TOP: nat := 0xFFFF_FFFF
  const FREE: nat := 1
  const KERNEL: nat := 0xFFFF_FFFF
  const MAX_BOOT: nat := 128
  const MAX_MAP: nat := 130

  /** An entry of the boot loader's map: addresses and lengths have 64 bits, in two words. */
  datatype Entry = Entry(addrLow: Word, addrHigh: Word, lenLow: Word, lenHigh: Word, kind: Word)

  /** An address where an entry starts or ends. */
  datatype Change = Change(addr: Word, entry: nat)

  /** A region of the resulting map. */
  datatype Region = Region(address: int, size: int, kind: int)

  /** Only entries in the 32-bit address space are used. */
  predicate Kept(e: Entry) {
    e.addrHigh == 0
  }

  /** The first address after the entry, the last address there is if it reaches over the 32-bit address space. */
  function EndOf(e: Entry): Word {
    if e.lenHigh > 0 || (e.addrLow + e.lenLow) % 0x1_0000_0000 < e.addrLow then TOP
    else (e.addrLow + e.lenLow) % 0x1_0000_0000
  }

  predicate Covers(e: Entry, x: int) {
    Kept(e) && e.addrLow <= x < EndOf(e)
  }

  /** The cut-off entry covers what the entry of 64 bits does, as far as there are addresses; the last byte of all,
      which has no end in 32 bits, belongs to no entry. */
  lemma CoversExact(e: Entry, x: int)
    requires 0 <= x < TOP
    ensures Covers(e, x) <==>
            e.addrLow + 0x1_0000_0000 * e.addrHigh <= x < e.addrLow + 0x1_0000_0000 * e.addrHigh + e.lenLow + 0x1_0000_0000 * e.lenHigh
  {
    assert e.addrHigh > 0 ==> 0x1_0000_0000 * e.addrHigh > x;
    assert e.lenHigh > 0 ==> 0x1_0000_0000 * e.lenHigh > x;
  }

  predicate Empty(e: Entry) {
    EndOf(e) == e.addrLow
  }

  /** An entry without a byte.  The code takes its end for another start, so that it never ends. */
  predicate Lingers(e: Entry, x: int) {
    Kept(e) && Empty(e) && e.addrLow <= x
  }

  function Max(a: int, b: int): int {
    if a < b then b else a
  }

  /** The type of an address: the highest of all entries that cover it, 0 for none. */
  function TypeAt(es: seq<Entry>, x: int): nat {
    if es == [] then 0
    else
      var last := es[|es| - 1];
      Max(TypeAt(es[..|es| - 1], x), if Covers(last, x) then last.kind else 0)
  }

  /** The highest type of the empty entries up to an address. */
  function LingerAt(es: seq<Entry>, x: int): nat {
    if es == [] then 0
    else
      var last := es[|es| - 1];
      Max(LingerAt(es[..|es| - 1], x), if Lingers(last, x) then last.kind else 0)
  }

  lemma {:induction false} TypeAtIs(es: seq<Entry>, x: int)
    ensures forall e :: 0 <= e < |es| && Covers(es[e], x) ==> es[e].kind <= TypeAt(es, x)
    ensures TypeAt(es, x) == 0 || exists e :: 0 <= e < |es| && Covers(es[e], x) && es[e].kind == TypeAt(es, x)
  {
    if es != [] {
      var front := es[..|es| - 1];
      TypeAtIs(front, x);
      assert forall e :: 0 <= e < |front| ==> front[e] == es[e];
      if TypeAt(es, x) != 0 && TypeAt(es, x) == TypeAt(front, x) {
        var e :| 0 <= e < |front| && Covers(front[e], x) && front[e].kind == TypeAt(front, x);
        assert Covers(es[e], x);
      }
    }
  }

  lemma {:induction false} LingerAtIs(es: seq<Entry>, x: int)
    ensures forall e :: 0 <= e < |es| && Lingers(es[e], x) ==> es[e].kind <= LingerAt(es, x)
    ensures LingerAt(es, x) == 0 || exists e :: 0 <= e < |es| && Lingers(es[e], x) && es[e].kind == LingerAt(es, x)
  {
    if es != [] {
      var front := es[..|es| - 1];
      LingerAtIs(front, x);
      assert forall e :: 0 <= e < |front| ==> front[e] == es[e];
      if LingerAt(es, x) != 0 && LingerAt(es, x) == LingerAt(front, x) {
        var e :| 0 <= e < |front| && Lingers(front[e], x) && front[e].kind == LingerAt(front, x);
        assert Lingers(es[e], x);
      }
    }
  }

  /** The type of an address when empty entries never end. */
  function Stretched(es: seq<Entry>, x: int): int {
    Max(TypeAt(es, x), LingerAt(es, x))
  }

  /** Type t is the highest of the entries numbered in over. */
  ghost predicate IsMax(es: seq<Entry>, over: seq<nat>, t: int) {
    && (forall k :: 0 <= k < |over| ==> over[k] < |es| && es[over[k]].kind <= t)
    && (t == 0 || exists k :: 0 <= k < |over| && es[over[k]].kind == t)
    && t >= 0
  }

  lemma StretchedIs(es: seq<Entry>, x: int, over: seq<nat>, t: int)
    requires IsMax(es, over, t)
    requires forall e: nat :: e < |es| ==> (e in over <==> Covers(es[e], x) || Lingers(es[e], x))
    ensures Stretched(es, x) == t
  {
    hide Covers, Lingers;
    TypeAtIs(es, x);
    LingerAtIs(es, x);
    if t != 0 {
      var k :| 0 <= k < |over| && es[over[k]].kind == t;
      assert over[k] in over;
    }
    if Stretched(es, x) != 0 {
      var e :| 0 <= e < |es| && (Covers(es[e], x) || Lingers(es[e], x)) && es[e].kind == Stretched(es, x);
      assert e in over;
    }
  }

  // ----- the changes, sorted

  predicate IsStart(es: seq<Entry>, p: Change)
    requires p.entry < |es|
  {
    p.addr == es[p.entry].addrLow
  }

  /** Changes are ordered by address, starts before ends. */
  function Key(es: seq<Entry>, p: Change): int
    requires p.entry < |es|
  {
    2 * p.addr + if IsStart(es, p) then 0 else 1
  }

  function StartOf(es: seq<Entry>, e: nat): Change
    requires e < |es|
  {
    Change(es[e].addrLow, e)
  }

  function EndChange(es: seq<Entry>, e: nat): Change
    requires e < |es|
  {
    Change(EndOf(es[e]), e)
  }

  /** Each used entry has its start and its end among the changes, and nothing else has; only an empty entry's
      are the same. */
  ghost predicate ChangesOK(es: seq<Entry>, ps: seq<Change>) {
    && (forall j :: 0 <= j < |ps| ==>
          && ps[j].entry < |es| && Kept(es[ps[j].entry])
          && (ps[j] == StartOf(es, ps[j].entry) || ps[j] == EndChange(es, ps[j].entry)))
    && (forall e: nat :: e < |es| && Kept(es[e]) ==> StartOf(es, e) in ps && EndChange(es, e) in ps)
    && (forall j, k :: 0 <= j < k < |ps| && ps[j] == ps[k] ==> Empty(es[ps[j].entry]))
  }

  ghost predicate InRange(es: seq<Entry>, ps: seq<Change>) {
    forall j :: 0 <= j < |ps| ==> ps[j].entry < |es|
  }

  ghost predicate Sorted(es: seq<Entry>, ps: seq<Change>)
    requires InRange(es, ps)
  {
    forall j, k :: 0 <= j < k < |ps| ==> Key(es, ps[j]) <= Key(es, ps[k])
  }

  ghost predicate SortedOK(es: seq<Entry>, ps: seq<Change>) {
    ChangesOK(es, ps) && InRange(es, ps) && Sorted(es, ps)
  }

  lemma KeyAddr(es: seq<Entry>, p: Change, q: Change)
    requires p.entry < |es| && q.entry < |es| && Key(es, p) <= Key(es, q)
    ensures p.addr <= q.addr && (p.addr == q.addr && IsStart(es, q) ==> IsStart(es, p))
  {
  }

  /** The entries that have started and not ended after i changes. */
  ghost predicate Open(es: seq<Entry>, ps: seq<Change>, i: nat, e: nat)
    requires i <= |ps| && e < |es|
  {
    Kept(es[e]) && StartOf(es, e) in ps[..i] && (Empty(es[e]) || EndChange(es, e) !in ps[..i])
  }

  /** Between two changes, the open entries are the ones that cover the address. */
  lemma GapOpen(es: seq<Entry>, ps: seq<Change>, i: nat, x: int, e: nat)
    requires SortedOK(es, ps) && i <= |ps| && e < |es|
    requires forall j :: 0 <= j < i ==> ps[j].addr <= x
    requires forall j :: i <= j < |ps| ==> x < ps[j].addr
    ensures Open(es, ps, i, e) <==> Covers(es[e], x) || Lingers(es[e], x)
  {
    if Kept(es[e]) {
      InOne(ps, i, StartOf(es, e), x);
      InOne(ps, i, EndChange(es, e), x);
    }
  }

  lemma InOne(ps: seq<Change>, i: nat, p: Change, x: int)
    requires p in ps && i <= |ps|
    requires forall j :: 0 <= j < i ==> ps[j].addr <= x
    requires forall j :: i <= j < |ps| ==> x < ps[j].addr
    ensures p in ps[..i] <==> p.addr <= x
  {
    var j :| 0 <= j < |ps| && ps[j] == p;
    if j < i {
      assert ps[..i][j] == p;
    }
  }
}
