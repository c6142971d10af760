/** The frames that memory_init takes from the free regions (memory.c). */
module FreeFrames {
  import opened MemoryMap
  import opened Paging
  import opened Sweep
  import opened Sequences

  /** The next page boundary; it wraps around at the end of the address space. */
  function PageAlign(v: int): int {
    (v + 4095) % 0x1_0000_0000 / 4096 * 4096
  }

  /** The pages from one boundary to another. */
  function FramesIn(frame: int, end: int): seq<int>
    decreases end - frame
  {
    if frame < end then [frame] + FramesIn(frame + PAGE, end) else []
  }

  /** The frames of a region, none if it is not free. */
  function RegionFrames(r: Region): seq<int> {
    if r.kind == FREE then FramesIn(PageAlign(r.address), PageFloor(r.address + r.size)) else []
  }

  /** The frames of all free regions, in the order they are pushed. */
  function FramesFree(out: seq<Region>): seq<int> {
    if out == [] then [] else FramesFree(out[..|out| - 1]) + RegionFrames(out[|out| - 1])
  }

  /** The regions are within the 32-bit address space. */
  ghost predicate Fits(out: seq<Region>) {
    forall k :: 0 <= k < |out| ==> 0 <= out[k].address && Finish(out[k]) <= TOP
  }

  /** Every byte of the page is free. */
  ghost predicate FreePage(out: seq<Region>, f: int) {
    forall x :: f <= x < f + PAGE ==> OutType(out, x) == FREE
  }

  /** No free region starts in the last page of the address space. */
  ghost predicate NoHigh(out: seq<Region>) {
    forall k :: 0 <= k < |out| && out[k].kind == FREE ==> out[k].address <= 0xFFFF_F000
  }

  // ----- the type of an address and its region

  lemma {:induction false} RegionOf(out: seq<Region>, x: int) returns (k: int)
    requires OutType(out, x) != 0
    ensures 0 <= k < |out| && out[k].address <= x < Finish(out[k]) && out[k].kind == OutType(out, x)
  {
    var n := |out| - 1;
    if out[n].address <= x < Finish(out[n]) {
      k := n;
    } else {
      k := RegionOf(out[..n], x);
    }
  }

  lemma {:induction false} TypeOf(out: seq<Region>, k: nat, x: int)
    requires RegionsOK(out) && k < |out| && out[k].address <= x < Finish(out[k])
    ensures OutType(out, x) == out[k].kind
  {
    var n := |out| - 1;
    if k < n {
      assert Finish(out[k]) <= out[n].address;
      TypeOf(out[..n], k, x);
    }
  }

  /** The type changes where a region starts. */
  lemma TypeBefore(out: seq<Region>, k: nat)
    requires RegionsOK(out) && k < |out|
    ensures OutType(out, out[k].address - 1) != out[k].kind
  {
    var x := out[k].address - 1;
    if OutType(out, x) == out[k].kind {
      var l := RegionOf(out, x);
      Neighbours(out, l, k);
    }
  }

  lemma Order(out: seq<Region>, k: nat, l: nat)
    requires RegionsOK(out) && k < |out| && l < |out|
    ensures k < l ==> out[k].address < Finish(out[k]) <= out[l].address
  {
  }

  /** Regions that touch follow each other, and have different types. */
  lemma Neighbours(out: seq<Region>, l: nat, k: nat)
    requires RegionsOK(out) && l < |out| && k < |out|
    requires out[l].address <= out[k].address - 1 < Finish(out[l])
    ensures out[l].kind != out[k].kind
  {
    var next := if l + 1 < |out| then l + 1 else l;
    Order(out, k, l);
    Order(out, l, next);
    Order(out, next, k);
    assert k == l + 1;
  }

  /** Free bytes next to each other are in one region. */
  lemma {:induction false} OneRegion(out: seq<Region>, f: int, n: nat) returns (k: int)
    requires RegionsOK(out) && n > 0
    requires forall x :: f <= x < f + n ==> OutType(out, x) == FREE
    ensures 0 <= k < |out| && out[k].kind == FREE && out[k].address <= f && f + n <= Finish(out[k])
  {
    hide OutType;
    if n == 1 {
      assert OutType(out, f) == FREE;
      k := RegionOf(out, f);
    } else {
      k := OneRegion(out, f, n - 1);
      var x := f + n - 1;
      assert OutType(out, x) == FREE;
      var l := RegionOf(out, x);
      if l != k {
        Separate(out, k, l, x);
        TypeBefore(out, l);
        assert false;
      }
    }
  }

  /** The region after one whose end is x. */
  lemma Separate(out: seq<Region>, k: nat, l: nat, x: int)
    requires RegionsOK(out) && k < |out| && l < |out| && l != k
    requires out[k].address < x <= Finish(out[k]) && out[l].address <= x < Finish(out[l])
    ensures out[l].address == x
  {
  }

  // ----- the frames

  lemma {:induction false} FramesInIs(frame: int, end: int, f: int)
    requires frame % PAGE == 0
    ensures f in FramesIn(frame, end) <==> frame <= f < end && f % PAGE == 0
    decreases end - frame
  {
    if frame < end {
      FramesInIs(frame + PAGE, end, f);
    }
  }

  lemma AlignIs(v: int)
    requires 0 <= v < TOP
    ensures PageAlign(v) % PAGE == 0 && PageAlign(v) >= 0
    ensures v <= 0xFFFF_F000 ==> v <= PageAlign(v) < v + PAGE
    ensures v > 0xFFFF_F000 ==> PageAlign(v) == 0
  {
  }

  /** A free region's frames are the pages inside of it. */
  lemma RegionFramesIs(r: Region, f: int)
    requires r.kind == FREE && 0 <= r.address <= 0xFFFF_F000 && r.size > 0 && Finish(r) <= TOP
    ensures f in RegionFrames(r) <==> f % PAGE == 0 && r.address <= f && f + PAGE <= Finish(r)
  {
    AlignIs(r.address);
    FramesInIs(PageAlign(r.address), PageFloor(Finish(r)), f);
    hide PageAlign;
  }

  lemma {:induction false} FramesOfRegion(out: seq<Region>, k: nat, f: int)
    requires k < |out| && f in RegionFrames(out[k])
    ensures f in FramesFree(out)
  {
    if k < |out| - 1 {
      assert out[..|out| - 1][k] == out[k];
      FramesOfRegion(out[..|out| - 1], k, f);
    }
  }

  lemma {:induction false} RegionOfFrame(out: seq<Region>, f: int) returns (k: int)
    requires f in FramesFree(out)
    ensures 0 <= k < |out| && f in RegionFrames(out[k])
  {
    var n := |out| - 1;
    if f in RegionFrames(out[n]) {
      k := n;
    } else {
      k := RegionOfFrame(out[..n], f);
    }
  }

  /** A frame is taken exactly when it is a page of which every byte is free. */
  lemma FramesFreeExact(out: seq<Region>, f: int)
    requires RegionsOK(out) && Fits(out) && NoHigh(out)
    ensures f in FramesFree(out) <==> f % PAGE == 0 && FreePage(out, f)
  {
    if f in FramesFree(out) {
      var k := RegionOfFrame(out, f);
      RegionFramesIs(out[k], f);
      forall x | f <= x < f + PAGE
        ensures OutType(out, x) == FREE
      {
        TypeOf(out, k, x);
      }
    }
    if f % PAGE == 0 && FreePage(out, f) {
      var k := OneRegion(out, f, PAGE);
      RegionFramesIs(out[k], f);
      FramesOfRegion(out, k, f);
    }
  }

  ghost predicate Disjoint(xs: seq<int>, ys: seq<int>) {
    forall x :: x in xs ==> x !in ys
  }

  lemma {:induction false} FramesInNoDup(frame: int, end: int)
    requires frame % PAGE == 0
    ensures NoDup(FramesIn(frame, end))
    decreases end - frame
  {
    if frame < end {
      FramesInNoDup(frame + PAGE, end);
      FramesInIs(frame + PAGE, end, frame);
    }
  }

  lemma NoDupJoin(xs: seq<int>, ys: seq<int>)
    requires NoDup(xs) && NoDup(ys) && Disjoint(xs, ys)
    ensures NoDup(xs + ys)
  {
    assert forall i :: 0 <= i < |xs| ==> xs[i] in xs;
    assert forall j :: 0 <= j < |ys| ==> ys[j] in ys;
  }

  /** No frame is taken twice. */
  lemma {:induction false} FramesFreeOnce(out: seq<Region>)
    requires RegionsOK(out) && Fits(out) && NoHigh(out)
    ensures NoDup(FramesFree(out))
  {
    if out != [] {
      var n := |out| - 1;
      var front := out[..n];
      FramesFreeOnce(front);
      hide RegionFrames, PageAlign, PageFloor;
      LastApart(out);
      NoDupJoin(FramesFree(front), RegionFrames(out[n]));
    }
  }

  lemma LastApart(out: seq<Region>)
    requires RegionsOK(out) && Fits(out) && NoHigh(out) && out != []
    ensures NoDup(RegionFrames(out[|out| - 1]))
    ensures Disjoint(FramesFree(out[..|out| - 1]), RegionFrames(out[|out| - 1]))
  {
    hide FramesIn, PageFloor, PageAlign;
    var n := |out| - 1;
    var front := out[..n];
    if out[n].kind == FREE {
      AlignIs(out[n].address);
      FramesInNoDup(PageAlign(out[n].address), PageFloor(Finish(out[n])));
      forall f | f in FramesFree(front)
        ensures f !in RegionFrames(out[n])
      {
        var k := RegionOfFrame(front, f);
        FrameOfFree(out[k], f);
        Order(out, k, n);
        RegionFramesIs(out[k], f);
        RegionFramesIs(out[n], f);
      }
    }
  }

  lemma FrameOfFree(r: Region, f: int)
    requires f in RegionFrames(r)
    ensures r.kind == FREE
  {
  }

  /** A free region that starts in the last page makes the code take all frames of the address space. */
  lemma HighRegionTakesAll(out: seq<Region>, k: nat, f: int)
    requires Fits(out) && RegionsOK(out) && k < |out| && out[k].kind == FREE && out[k].address > 0xFFFF_F000
    requires 0 <= f < 0xFFFF_F000 && f % PAGE == 0
    ensures f in FramesFree(out)
  {
    AlignIs(out[k].address);
    FramesInIs(0, PageFloor(Finish(out[k])), f);
    assert PageFloor(Finish(out[k])) == 0xFFFF_F000;
    FramesOfRegion(out, k, f);
  }

  /** With the kernel's memory somewhere below the last page: only free pages are taken exactly when no free region
      starts in that page. */
  lemma OnlyFreeExact(out: seq<Region>, kernel: int)
    requires RegionsOK(out) && Fits(out) && 0 <= kernel < 0xFFFF_F000 && OutType(out, kernel) != FREE
    ensures (forall f :: f in FramesFree(out) ==> FreePage(out, f)) <==> NoHigh(out)
  {
    if NoHigh(out) {
      forall f | f in FramesFree(out)
        ensures FreePage(out, f)
      {
        FramesFreeExact(out, f);
      }
    } else {
      var k :| 0 <= k < |out| && out[k].kind == FREE && out[k].address > 0xFFFF_F000;
      HighRegionTakesAll(out, k, PageFloor(kernel));
      assert PageFloor(kernel) <= kernel < PageFloor(kernel) + PAGE;
    }
  }

  /** The same condition on the entries. */
  lemma NoHighExact(es: seq<Entry>, out: seq<Region>)
    requires RegionsOK(out) && Fits(out) && Shows(es, out)
    ensures NoHigh(out) <==> forall x :: x > 0xFFFF_F000 && SeenType(es, x) == FREE ==> SeenType(es, x - 1) == FREE
  {
    hide OutType, SeenType;
    if NoHigh(out) {
      forall x | x > 0xFFFF_F000 && SeenType(es, x) == FREE
        ensures SeenType(es, x - 1) == FREE
      {
        assert OutType(out, x) == FREE;
        var k := RegionOf(out, x);
        TypeOf(out, k, x - 1);
        assert OutType(out, x - 1) == SeenType(es, x - 1);
      }
    } else {
      var k :| 0 <= k < |out| && out[k].kind == FREE && out[k].address > 0xFFFF_F000;
      var x := out[k].address;
      TypeOf(out, k, x);
      TypeBefore(out, k);
      assert OutType(out, x) == SeenType(es, x) && OutType(out, x - 1) == SeenType(es, x - 1);
    }
  }
}
