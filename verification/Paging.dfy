/**
 The page tables and the stack of free frames.  All of it lies in physical memory: the page directory, the page
 tables, and the frames that hold the stack of free frames, which are free frames themselves.
 */
module Paging {
  import opened Sequences

  const PAGE: nat := 4096
  const ENTRIES: nat := 1024
  const WORDS: nat := 1024
  const LIMIT: nat := 0x1_0000_0000
  const STACK_TOP: nat := 0xFFC0_0000
  const STACK_BOTTOM: nat := 0xFF80_0000
  /** The page table of the stack's addresses, and the one that maps the tables themselves. */
  const STACK_TABLE: nat := 1022
  const SELF_TABLE: nat := 1023
  const PRESENT: nat := 1
  const WRITE: nat := 2
  const USER: nat := 4

  type PhysMem = map<int, int>

  function Load(m: PhysMem, a: int): int {
    if a in m then m[a] else 0
  }

  predicate Present(w: int) {
    w % 2 == 1
  }

  predicate Large(w: int) {
    w / 128 % 2 == 1
  }

  function PageFloor(v: int): int {
    v / 4096 * 4096
  }

  /** The frame of a table entry: its flags masked out. */
  function FrameOf(w: int): int {
    w / 4096 * 4096
  }

  /** A frame address as the hardware has it. */
  predicate IsFrame(f: int) {
    0 <= f < LIMIT && f % PAGE == 0
  }

  /** One page of the stack: the frame behind it, and the frames noted in it, the first one at its upper end. */
  datatype StackPage = StackPage(frame: int, words: seq<int>)

  /** The free frames in the order they were pushed. */
  function Frames(stack: seq<StackPage>): seq<int> {
    if stack == [] then []
    else
      var last := stack[|stack| - 1];
      Frames(stack[..|stack| - 1]) + [last.frame] + last.words
  }

  ghost predicate StackShape(stack: seq<StackPage>) {
    && (forall j :: 0 <= j < |stack| - 1 ==> |stack[j].words| == WORDS)
    && (stack != [] ==> |stack[|stack| - 1].words| <= WORDS)
  }

  /** A frame with flags. */
  lemma EntryOf(frame: int, flags: nat)
    requires IsFrame(frame) && flags < PAGE
    ensures FrameOf(frame + flags) == frame && FrameOf(frame) == frame && (frame + flags) % 4096 == flags
    ensures Present(frame + flags) <==> flags % 2 == 1
    ensures flags < 128 ==> !Large(frame + flags)
  {
    var q := frame / 4096;
    assert frame == 4096 * q;
    assert (frame + flags) / 4096 == q;
    assert (frame + flags) / 128 == 32 * q + flags / 128;
  }

  /** Where the stack pointer stands. */
  function PointerOf(stack: seq<StackPage>): int {
    if stack == [] then STACK_TOP
    else STACK_TOP - PAGE * (|stack| - 1) - 4 * |stack[|stack| - 1].words|
  }

  /** Address of word i of a stack page in physical memory. */
  function SlotOf(frame: int, i: int): int {
    frame + PAGE - 4 * (i + 1)
  }

  /** What each frame in use for paging holds. */
  ghost predicate DirectoryOK(m: PhysMem, pd: int, tables: map<int, int>, large: set<int>) {
    forall t :: 0 <= t < SELF_TABLE ==>
      var w := Load(m, pd + 4 * t);
      if t in tables then Present(w) && !Large(w) && FrameOf(w) == tables[t]
      else if t in large then Present(w) && Large(w)
      else !Present(w)
  }

  ghost predicate TableOK(m: PhysMem, t: int, frame: int, entries: map<int, int>) {
    forall i :: 0 <= i < ENTRIES ==>
      var w := Load(m, frame + 4 * i);
      if ENTRIES * t + i in entries then w == entries[ENTRIES * t + i] else !Present(w)
  }

  /** Where the table entry of the j-th stack page is, the stack growing downwards. */
  function StackEntry(frame: int, j: int): int {
    frame + 4 * (ENTRIES - 1 - j)
  }

  ghost predicate StackTableOK(m: PhysMem, frame: int, stack: seq<StackPage>) {
    forall j :: 0 <= j < ENTRIES ==>
      var w := Load(m, StackEntry(frame, j));
      if j < |stack| then w == stack[j].frame + PRESENT + WRITE else !Present(w)
  }

  ghost predicate StackPageOK(m: PhysMem, page: StackPage) {
    forall i :: 0 <= i < |page.words| ==> Load(m, SlotOf(page.frame, i)) == page.words[i]
  }

  /** Every page table entry, and every page of the stack, where it should be. */
  ghost predicate TablesStored(m: PhysMem, pd: int, tables: map<int, int>, large: set<int>, entries: map<int, int>, stack: seq<StackPage>) {
    && DirectoryOK(m, pd, tables, large)
    && (forall t :: t in tables && t != STACK_TABLE ==> TableOK(m, t, tables[t], entries))
    && STACK_TABLE in tables && StackTableOK(m, tables[STACK_TABLE], stack)
    && (forall j :: 0 <= j < |stack| ==> StackPageOK(m, stack[j]))
  }

  /** The frames that are not free: page directory, page tables and mapped pages. */
  ghost function InUse(pd: int, tables: map<int, int>, entries: map<int, int>): set<int> {
    {pd} + tables.Values + set v | v in entries :: FrameOf(entries[v])
  }

  /** The free frames, the page tables and the page directory are all different. */
  ghost predicate FramesDiffer(pd: int, tables: map<int, int>, free: seq<int>) {
    && NoDup(free)
    && (forall i :: 0 <= i < |free| ==> IsFrame(free[i]) && free[i] != pd)
    && IsFrame(pd)
    && (forall t :: t in tables ==> IsFrame(tables[t]) && tables[t] != pd && tables[t] !in free)
    && (forall t, u :: t in tables && u in tables && t != u ==> tables[t] != tables[u])
  }

  /** All frames in use or free are different. */
  ghost predicate Distinct(pd: int, tables: map<int, int>, entries: map<int, int>, free: seq<int>) {
    && FramesDiffer(pd, tables, free)
    && (forall v :: v in entries ==> IsFrame(FrameOf(entries[v])) && FrameOf(entries[v]) != pd && FrameOf(entries[v]) !in free)
    && (forall v, t :: v in entries && t in tables ==> FrameOf(entries[v]) != tables[t])
    && (forall v, w :: v in entries && w in entries && v != w ==> FrameOf(entries[v]) != FrameOf(entries[w]))
  }

  ghost predicate EntriesOK(tables: map<int, int>, large: set<int>, entries: map<int, int>) {
    && (forall t :: t in tables ==> 0 <= t < SELF_TABLE && t !in large)
    && (forall t :: t in large ==> 0 <= t < SELF_TABLE)
    && (forall v :: v in entries ==> 0 <= v < ENTRIES * STACK_TABLE && v / ENTRIES in tables && Present(entries[v]))
  }

  // ----- frames do not overlap

  /** A word of one frame is no word of another. */
  lemma FramesApart(f: int, g: int, y: int)
    requires IsFrame(f) && IsFrame(g) && f != g && g <= y < g + PAGE
    ensures !(f <= y < f + PAGE)
  {
    assert f == PAGE * (f / PAGE) && g == PAGE * (g / PAGE);
    assert y / PAGE == g / PAGE;
  }

  /** The words of frame f are the same in both memories. */
  ghost predicate SameFrame(m: PhysMem, m': PhysMem, f: int) {
    forall a :: f <= a < f + PAGE ==> Load(m', a) == Load(m, a)
  }

  lemma StoreElsewhere(m: PhysMem, g: int, y: int, v: int, f: int)
    requires IsFrame(f) && IsFrame(g) && f != g && g <= y < g + PAGE
    ensures SameFrame(m, m[y := v], f)
  {
    FramesApart(f, g, y);
  }

  lemma DirectoryFrame(m: PhysMem, m': PhysMem, pd: int, tables: map<int, int>, large: set<int>)
    requires DirectoryOK(m, pd, tables, large) && SameFrame(m, m', pd)
    ensures DirectoryOK(m', pd, tables, large)
  {
  }

  lemma TableFrame(m: PhysMem, m': PhysMem, t: int, frame: int, entries: map<int, int>)
    requires TableOK(m, t, frame, entries) && SameFrame(m, m', frame)
    ensures TableOK(m', t, frame, entries)
  {
  }

  lemma StackTableFrame(m: PhysMem, m': PhysMem, frame: int, stack: seq<StackPage>)
    requires StackTableOK(m, frame, stack) && SameFrame(m, m', frame)
    ensures StackTableOK(m', frame, stack)
  {
    forall j | 0 <= j < ENTRIES
      ensures Load(m', StackEntry(frame, j)) == Load(m, StackEntry(frame, j))
    {
    }
  }

  lemma StackPageFrame(m: PhysMem, m': PhysMem, page: StackPage)
    requires StackPageOK(m, page) && |page.words| <= WORDS && SameFrame(m, m', page.frame)
    ensures StackPageOK(m', page)
  {
  }

  /** The contents of the pages of these entries are the same in both memories. */
  ghost predicate PagesKept(m: PhysMem, m': PhysMem, entries: map<int, int>) {
    forall v :: v in entries ==> SameFrame(m, m', FrameOf(entries[v]))
  }

  lemma PagesSame(m: PhysMem, entries: map<int, int>)
    ensures PagesKept(m, m, entries)
  {
  }

  lemma PagesKeptTrans(m: PhysMem, m': PhysMem, m'': PhysMem, entries: map<int, int>)
    requires PagesKept(m, m', entries) && PagesKept(m', m'', entries)
    ensures PagesKept(m, m'', entries)
  {
    hide FrameOf;
    forall v | v in entries
      ensures SameFrame(m, m'', FrameOf(entries[v]))
    {
      assert SameFrame(m, m', FrameOf(entries[v])) && SameFrame(m', m'', FrameOf(entries[v]));
    }
  }

  lemma PagesKeptSub(m: PhysMem, m': PhysMem, entries: map<int, int>, entries': map<int, int>)
    requires PagesKept(m, m', entries) && forall v :: v in entries' ==> v in entries && entries'[v] == entries[v]
    ensures PagesKept(m, m', entries')
  {
    hide SameFrame, FrameOf;
  }

  /** A write to another frame. */
  lemma PagesKeptWrite(m: PhysMem, g: int, y: int, w: int, entries: map<int, int>)
    requires IsFrame(g) && g <= y < g + PAGE
    requires forall v :: v in entries ==> IsFrame(FrameOf(entries[v])) && FrameOf(entries[v]) != g
    ensures PagesKept(m, m[y := w], entries)
  {
    hide FrameOf, IsFrame, SameFrame;
    forall v | v in entries
      ensures SameFrame(m, m[y := w], FrameOf(entries[v]))
    {
      StoreElsewhere(m, g, y, w, FrameOf(entries[v]));
    }
  }

  /** No mapped page is the page directory, a page table, or a free frame. */
  lemma MappedApart(pd: int, tables: map<int, int>, entries: map<int, int>, free: seq<int>)
    requires Distinct(pd, tables, entries, free)
    ensures forall v :: v in entries ==> IsFrame(FrameOf(entries[v])) && FrameOf(entries[v]) != pd
    ensures forall v, t :: v in entries && t in tables ==> FrameOf(entries[v]) != tables[t]
    ensures forall v :: v in entries ==> FrameOf(entries[v]) !in free
    ensures IsFrame(pd) && (forall t :: t in tables ==> IsFrame(tables[t])) && forall x :: x in free ==> IsFrame(x)
  {
    hide IsFrame, FrameOf, NoDup;
  }

  // ----- writes that keep everything else stored

  ghost predicate PagesFit(stack: seq<StackPage>) {
    forall j :: 0 <= j < |stack| ==> |stack[j].words| <= WORDS
  }

  /** A frame of the stack is one of the free frames. */
  lemma {:induction false} StackFrameFree(stack: seq<StackPage>, j: nat)
    requires j < |stack|
    ensures stack[j].frame in Frames(stack)
    ensures forall x :: x in stack[j].words ==> x in Frames(stack)
  {
    var n := |stack|;
    var front, last := stack[..n - 1], stack[n - 1];
    assert Frames(stack) == Frames(front) + [last.frame] + last.words;
    if j < n - 1 {
      StackFrameFree(front, j);
      assert front[j] == stack[j];
    } else {
      assert last.frame in [last.frame];
    }
  }

  lemma FramesAppendPage(stack: seq<StackPage>, frame: int)
    ensures Frames(stack + [StackPage(frame, [])]) == Frames(stack) + [frame]
  {
    assert (stack + [StackPage(frame, [])])[..|stack|] == stack;
  }

  /** The stack with its last page noting one frame more. */
  function Noted(stack: seq<StackPage>, frame: int): seq<StackPage>
    requires stack != []
  {
    var last := stack[|stack| - 1];
    stack[..|stack| - 1] + [StackPage(last.frame, last.words + [frame])]
  }

  lemma FramesNoted(stack: seq<StackPage>, frame: int)
    requires stack != []
    ensures Frames(Noted(stack, frame)) == Frames(stack) + [frame]
  {
    var last := stack[|stack| - 1];
    assert Noted(stack, frame)[..|stack| - 1] == stack[..|stack| - 1];
    assert Frames(stack[..|stack| - 1]) + [last.frame] + (last.words + [frame]) == Frames(stack) + [frame];
  }

  /** The stack with its last page noting one frame less. */
  function Unnoted(stack: seq<StackPage>): seq<StackPage>
    requires stack != [] && stack[|stack| - 1].words != []
  {
    var last := stack[|stack| - 1];
    stack[..|stack| - 1] + [StackPage(last.frame, last.words[..|last.words| - 1])]
  }

  lemma FramesUnnoted(stack: seq<StackPage>)
    requires stack != [] && stack[|stack| - 1].words != []
    ensures var last := stack[|stack| - 1];
            Frames(stack) == Frames(Unnoted(stack)) + [last.words[|last.words| - 1]]
  {
    var last := stack[|stack| - 1];
    assert Unnoted(stack)[..|stack| - 1] == stack[..|stack| - 1];
    assert last.words == last.words[..|last.words| - 1] + [last.words[|last.words| - 1]];
  }

  // ----- a stack that is never full

  lemma {:induction false} BoundedSize(numbers: set<int>, n: nat)
    requires forall k :: k in numbers ==> 0 <= k < n
    ensures |numbers| <= n
  {
    if n > 0 {
      BoundedSize(numbers - {n - 1}, n - 1);
      assert n - 1 in numbers ==> numbers == numbers - {n - 1} + {n - 1};
    } else {
      assert forall k :: k !in numbers;
      assert numbers == {};
    }
  }

  /** Different frames have different numbers, and there are 2^20 of them. */
  lemma {:induction false} FrameNumbers(xs: seq<int>) returns (numbers: set<int>)
    requires NoDup(xs) && forall i :: 0 <= i < |xs| ==> IsFrame(xs[i])
    ensures |numbers| == |xs| && forall k :: k in numbers <==> PAGE * k in xs
  {
    if xs == [] {
      numbers := {};
    } else {
      var front, last := xs[..|xs| - 1], xs[|xs| - 1];
      var rest := FrameNumbers(front);
      assert last == PAGE * (last / PAGE);
      assert last !in front;
      numbers := rest + {last / PAGE};
      forall k
        ensures k in numbers <==> PAGE * k in xs
      {
        assert xs == front + [last];
      }
    }
  }

  lemma FrameCount(xs: seq<int>)
    requires NoDup(xs) && forall i :: 0 <= i < |xs| ==> IsFrame(xs[i])
    ensures |xs| <= 0x10_0000
  {
    var numbers := FrameNumbers(xs);
    forall k | k in numbers
      ensures 0 <= k < 0x10_0000
    {
      var i :| 0 <= i < |xs| && xs[i] == PAGE * k;
      assert IsFrame(xs[i]);
    }
    BoundedSize(numbers, 0x10_0000);
  }

  lemma {:induction false} FramesLength(stack: seq<StackPage>)
    requires stack != [] && StackShape(stack)
    ensures |Frames(stack)| == (WORDS + 1) * (|stack| - 1) + 1 + |stack[|stack| - 1].words|
  {
    var front := stack[..|stack| - 1];
    if front != [] {
      FramesLength(front);
    }
  }

  lemma AllDifferent(pd: int, tables: map<int, int>, free: seq<int>)
    requires FramesDiffer(pd, tables, free) && STACK_TABLE in tables
    ensures var all := free + [pd] + [tables[STACK_TABLE]];
            NoDup(all) && forall i :: 0 <= i < |all| ==> IsFrame(all[i])
  {
    hide IsFrame;
  }

  /** Even with all frames there are on it, the stack does not reach its bottom: the overflow test is never met. */
  lemma NeverFull(stack: seq<StackPage>, pd: int, tables: map<int, int>)
    requires StackShape(stack) && FramesDiffer(pd, tables, Frames(stack)) && STACK_TABLE in tables
    ensures |stack| < ENTRIES && PointerOf(stack) > STACK_BOTTOM
  {
    if stack != [] {
      FramesLength(stack);
      AllDifferent(pd, tables, Frames(stack));
      FrameCount(Frames(stack) + [pd] + [tables[STACK_TABLE]]);
    }
    hide FramesDiffer, Frames;
  }

  // ----- what each operation writes

  /** A write into the stack's page table. */
  lemma WriteStackTable(m: PhysMem, pd: int, tables: map<int, int>, large: set<int>, entries: map<int, int>,
                        stack: seq<StackPage>, stack': seq<StackPage>, y: int, v: int)
    requires TablesStored(m, pd, tables, large, entries, stack) && FramesDiffer(pd, tables, Frames(stack))
    requires tables[STACK_TABLE] <= y < tables[STACK_TABLE] + PAGE && PagesFit(stack)
    requires StackTableOK(m[y := v], tables[STACK_TABLE], stack')
    requires forall j :: 0 <= j < |stack'| ==> (j < |stack| && stack'[j] == stack[j]) || stack'[j].words == []
    ensures TablesStored(m[y := v], pd, tables, large, entries, stack')
  {
    var g, m' := tables[STACK_TABLE], m[y := v];
    StoreElsewhere(m, g, y, v, pd);
    DirectoryFrame(m, m', pd, tables, large);
    forall t | t in tables && t != STACK_TABLE
      ensures TableOK(m', t, tables[t], entries)
    {
      StoreElsewhere(m, g, y, v, tables[t]);
      TableFrame(m, m', t, tables[t], entries);
    }
    forall j | 0 <= j < |stack'|
      ensures StackPageOK(m', stack'[j])
    {
      if j < |stack| && stack'[j] == stack[j] {
        StackFrameFree(stack, j);
        StoreElsewhere(m, g, y, v, stack[j].frame);
        StackPageFrame(m, m', stack[j]);
      }
    }
    hide DirectoryOK, TableOK, StackTableOK;
  }

  /** A write into the last page of the stack. */
  lemma WriteStackPage(m: PhysMem, pd: int, tables: map<int, int>, large: set<int>, entries: map<int, int>,
                       stack: seq<StackPage>, frame: int)
    requires TablesStored(m, pd, tables, large, entries, stack) && FramesDiffer(pd, tables, Frames(stack))
    requires stack != [] && PagesFit(stack) && |stack[|stack| - 1].words| < WORDS
    ensures var last := stack[|stack| - 1];
            TablesStored(m[SlotOf(last.frame, |last.words|) := frame], pd, tables, large, entries, Noted(stack, frame))
  {
    hide FramesDiffer, DirectoryOK, TableOK, SameFrame, Frames, NoDup, IsFrame;
    var n := |stack|;
    var last, stack' := stack[n - 1], Noted(stack, frame);
    var y := SlotOf(last.frame, |last.words|);
    var m' := m[y := frame];
    StoredTables(m, pd, tables, large, entries, stack, Frames(stack));
    StackFrameFree(stack, n - 1);
    StoreElsewhere(m, last.frame, y, frame, pd);
    DirectoryFrame(m, m', pd, tables, large);
    forall t | t in tables
      ensures SameFrame(m, m', tables[t])
      ensures t != STACK_TABLE ==> TableOK(m', t, tables[t], entries)
    {
      StoreElsewhere(m, last.frame, y, frame, tables[t]);
      if t != STACK_TABLE {
        TableFrame(m, m', t, tables[t], entries);
      }
    }
    StackTableFrame(m, m', tables[STACK_TABLE], stack);
    assert StackTableOK(m', tables[STACK_TABLE], stack');
    forall j | 0 <= j < n
      ensures StackPageOK(m', stack'[j])
    {
      if j < n - 1 {
        StackFramesDiffer(stack, j);
        StackFrameFree(stack, j);
        StoreElsewhere(m, last.frame, y, frame, stack[j].frame);
        StackPageFrame(m, m', stack[j]);
      }
    }
  }

  lemma FramesUnroll(stack: seq<StackPage>)
    requires stack != []
    ensures var last := stack[|stack| - 1];
            Frames(stack) == Frames(stack[..|stack| - 1]) + [last.frame] + last.words
  {
  }

  lemma StackFramesDiffer(stack: seq<StackPage>, j: nat)
    requires NoDup(Frames(stack)) && j < |stack| - 1
    ensures stack[j].frame != stack[|stack| - 1].frame
  {
    hide Frames;
    var n := |stack|;
    var front, last := stack[..n - 1], stack[n - 1];
    FramesUnroll(stack);
    StackFrameFree(front, j);
    SplitDiffer(Frames(front), last.frame, last.words, stack[j].frame);
  }

  lemma SplitDiffer(xs: seq<int>, y: int, zs: seq<int>, x: int)
    requires NoDup(xs + [y] + zs) && x in xs
    ensures x != y
  {
    var i :| 0 <= i < |xs| && xs[i] == x;
    assert (xs + [y] + zs)[i] == x && (xs + [y] + zs)[|xs|] == y;
  }

  lemma ShapeFits(stack: seq<StackPage>)
    requires StackShape(stack)
    ensures PagesFit(stack)
  {
  }

  // ----- addresses

  /** The page just below the j-th page boundary under the top of the stack. */
  lemma StackAddress(j: nat, k: nat)
    requires j < ENTRIES && 0 < k <= PAGE
    ensures var v := STACK_TOP - PAGE * j - k;
            v >= 0 && v / 0x40_0000 == STACK_TABLE && v / 4096 % 1024 == 1023 - j && v % 4096 == PAGE - k
  {
    var v := STACK_TOP - PAGE * j - k;
    assert v == 4096 * (1022 * 1024 + 1023 - j) + (PAGE - k);
    assert v / 4096 == 1022 * 1024 + 1023 - j;
    assert v / 0x40_0000 == v / 4096 / 1024;
  }

  lemma StackTableEntry(m: PhysMem, pd: int, tables: map<int, int>, large: set<int>, entries: map<int, int>,
                        stack: seq<StackPage>, j: nat)
    requires TablesStored(m, pd, tables, large, entries, stack) && j < ENTRIES
    ensures var w := Load(m, pd + 4 * STACK_TABLE);
            Present(w) && !Large(w) && FrameOf(w) == tables[STACK_TABLE]
    ensures var w := Load(m, StackEntry(tables[STACK_TABLE], j));
            if j < |stack| then w == stack[j].frame + PRESENT + WRITE else !Present(w)
  {
    hide TableOK, StackPageOK;
  }

  // ----- page tables other than the stack's

  /** A write into a frame that is not part of the stack leaves the stack as it is. */
  lemma StackUntouched(m: PhysMem, pd: int, tables: map<int, int>, large: set<int>, entries: map<int, int>,
                       stack: seq<StackPage>, g: int, y: int, v: int)
    requires TablesStored(m, pd, tables, large, entries, stack) && FramesDiffer(pd, tables, Frames(stack)) && PagesFit(stack)
    requires IsFrame(g) && g !in Frames(stack) && g != tables[STACK_TABLE] && g <= y < g + PAGE
    ensures StackTableOK(m[y := v], tables[STACK_TABLE], stack)
    ensures forall j :: 0 <= j < |stack| ==> StackPageOK(m[y := v], stack[j])
  {
    StoreElsewhere(m, g, y, v, tables[STACK_TABLE]);
    StackTableFrame(m, m[y := v], tables[STACK_TABLE], stack);
    forall j | 0 <= j < |stack|
      ensures StackPageOK(m[y := v], stack[j])
    {
      StackFrameFree(stack, j);
      StoreElsewhere(m, g, y, v, stack[j].frame);
      StackPageFrame(m, m[y := v], stack[j]);
    }
  }

  /** Entry i of page table t is written. */
  lemma WriteTable(m: PhysMem, pd: int, tables: map<int, int>, large: set<int>, entries: map<int, int>, entries': map<int, int>,
                   stack: seq<StackPage>, t: int, i: nat, w: int)
    requires TablesStored(m, pd, tables, large, entries, stack) && FramesDiffer(pd, tables, Frames(stack)) && PagesFit(stack)
    requires t in tables && t != STACK_TABLE && i < ENTRIES
    requires forall v :: v != ENTRIES * t + i ==> (v in entries' <==> v in entries) && (v in entries ==> entries'[v] == entries[v])
    requires if ENTRIES * t + i in entries' then w == entries'[ENTRIES * t + i] else !Present(w)
    ensures TablesStored(m[tables[t] + 4 * i := w], pd, tables, large, entries', stack)
  {
    hide DirectoryOK, StackTableOK, StackPageOK, SameFrame, PagesFit, Frames;
    var g, y := tables[t], tables[t] + 4 * i;
    var m' := m[y := w];
    StoredTables(m, pd, tables, large, entries, stack, Frames(stack));
    StackUntouched(m, pd, tables, large, entries, stack, g, y, w);
    StoreElsewhere(m, g, y, w, pd);
    DirectoryFrame(m, m', pd, tables, large);
    forall u | u in tables && u != STACK_TABLE
      ensures TableOK(m', u, tables[u], entries')
    {
      assert TableOK(m, u, tables[u], entries);
      if u != t {
        StoreElsewhere(m, g, y, w, tables[u]);
        TableFrame(m, m', u, tables[u], entries);
        TableAgrees(m', u, tables[u], entries, entries', t, i);
      }
    }
  }

  lemma TableAgrees(m: PhysMem, u: int, frame: int, entries: map<int, int>, entries': map<int, int>, t: int, i: nat)
    requires TableOK(m, u, frame, entries) && u != t && i < ENTRIES
    requires forall v :: v != ENTRIES * t + i ==> (v in entries' <==> v in entries) && (v in entries ==> entries'[v] == entries[v])
    ensures TableOK(m, u, frame, entries')
  {
  }

  lemma DirectorySet(m: PhysMem, pd: int, tables: map<int, int>, large: set<int>, t: int, table: int)
    requires DirectoryOK(m, pd, tables, large) && 0 <= t < SELF_TABLE && IsFrame(table)
    ensures DirectoryOK(m[pd + 4 * t := table + PRESENT + WRITE], pd, tables[t := table], large)
  {
    EntryOf(table, PRESENT + WRITE);
    hide FrameOf, Present, Large;
  }

  lemma StoredTables(m: PhysMem, pd: int, tables: map<int, int>, large: set<int>, entries: map<int, int>, stack: seq<StackPage>,
                     free: seq<int>)
    requires TablesStored(m, pd, tables, large, entries, stack) && FramesDiffer(pd, tables, free)
    ensures DirectoryOK(m, pd, tables, large) && STACK_TABLE in tables && tables[STACK_TABLE] != pd && IsFrame(pd)
    ensures forall u :: u in tables && u != STACK_TABLE ==> TableOK(m, u, tables[u], entries)
    ensures forall u :: u in tables ==> IsFrame(tables[u]) && tables[u] != pd
    ensures StackTableOK(m, tables[STACK_TABLE], stack) && forall j :: 0 <= j < |stack| ==> StackPageOK(m, stack[j])
    ensures NoDup(free) && pd !in free && forall x :: x in free ==> IsFrame(x)
    ensures forall u :: u in tables ==> tables[u] !in free
  {
    hide DirectoryOK, TableOK, StackTableOK, StackPageOK;
  }

  /** The directory entry of a table that is not there yet is written. */
  lemma WriteDirectory(m: PhysMem, pd: int, tables: map<int, int>, large: set<int>, entries: map<int, int>,
                       stack: seq<StackPage>, t: int, table: int)
    requires TablesStored(m, pd, tables, large, entries, stack) && FramesDiffer(pd, tables, Frames(stack)) && PagesFit(stack)
    requires 0 <= t < STACK_TABLE && t !in tables && t !in large && IsFrame(table)
    ensures var m' := m[pd + 4 * t := table + PRESENT + WRITE];
            && DirectoryOK(m', pd, tables[t := table], large)
            && (forall u :: u in tables && u != STACK_TABLE ==> TableOK(m', u, tables[u], entries))
            && STACK_TABLE in tables && StackTableOK(m', tables[STACK_TABLE], stack)
            && (forall j :: 0 <= j < |stack| ==> StackPageOK(m', stack[j]))
  {
    hide TablesStored, FramesDiffer, DirectoryOK, TableOK, StackTableOK, StackPageOK, SameFrame, PagesFit, Frames;
    var y, w := pd + 4 * t, table + PRESENT + WRITE;
    StoredTables(m, pd, tables, large, entries, stack, Frames(stack));
    DirectorySet(m, pd, tables, large, t, table);
    StackUntouched(m, pd, tables, large, entries, stack, pd, y, w);
    forall u | u in tables && u != STACK_TABLE
      ensures TableOK(m[y := w], u, tables[u], entries)
    {
      StoreElsewhere(m, pd, y, w, tables[u]);
      TableFrame(m, m[y := w], u, tables[u], entries);
    }
  }

  lemma DirectoryCleared(m: PhysMem, pd: int, tables: map<int, int>, large: set<int>, t: int)
    requires DirectoryOK(m, pd, tables, large) && 0 <= t < SELF_TABLE && t !in tables
    ensures DirectoryOK(m[pd + 4 * t := 0], pd, tables, large - {t})
  {
    assert !Present(0);
    hide FrameOf, Present, Large;
  }

  /** The directory entry of a large page is cleared. */
  lemma DropLarge(m: PhysMem, pd: int, tables: map<int, int>, large: set<int>, entries: map<int, int>,
                  stack: seq<StackPage>, t: int)
    requires TablesStored(m, pd, tables, large, entries, stack) && FramesDiffer(pd, tables, Frames(stack)) && PagesFit(stack)
    requires 0 <= t < STACK_TABLE && t !in tables
    ensures TablesStored(m[pd + 4 * t := 0], pd, tables, large - {t}, entries, stack)
  {
    hide FramesDiffer, DirectoryOK, TableOK, StackTableOK, StackPageOK, SameFrame, PagesFit, Frames;
    var y := pd + 4 * t;
    StoredTables(m, pd, tables, large, entries, stack, Frames(stack));
    DirectoryCleared(m, pd, tables, large, t);
    StackUntouched(m, pd, tables, large, entries, stack, pd, y, 0);
    forall u | u in tables && u != STACK_TABLE
      ensures TableOK(m[y := 0], u, tables[u], entries)
    {
      StoreElsewhere(m, pd, y, 0, tables[u]);
      TableFrame(m, m[y := 0], u, tables[u], entries);
    }
  }

  /** Only words of frame g differ. */
  ghost predicate OnlyFrame(m: PhysMem, m': PhysMem, g: int) {
    forall f :: IsFrame(f) && f != g ==> SameFrame(m, m', f)
  }

  lemma EmptyTable(m: PhysMem, t: int, table: int, tables: map<int, int>, large: set<int>, entries: map<int, int>)
    requires EntriesOK(tables, large, entries) && t !in tables && t >= 0
    requires forall i :: 0 <= i < ENTRIES ==> Load(m, table + 4 * i) == 0
    ensures TableOK(m, t, table, entries)
  {
    forall v | v in entries
      ensures v / ENTRIES != t
    {
    }
    TableEmpty(m, t, table, entries);
  }

  lemma TableEmpty(m: PhysMem, t: int, table: int, entries: map<int, int>)
    requires t >= 0 && forall v :: v in entries ==> v / ENTRIES != t
    requires forall i :: 0 <= i < ENTRIES ==> Load(m, table + 4 * i) == 0
    ensures TableOK(m, t, table, entries)
  {
    forall i: int {:trigger Load(m, table + 4 * i)} | 0 <= i < ENTRIES
      ensures ENTRIES * t + i !in entries
    {
      assert (ENTRIES * t + i) / ENTRIES == t;
    }
  }

  /** Only a frame that is not mapped was written. */
  lemma PagesKeptOnly(m: PhysMem, m': PhysMem, g: int, entries: map<int, int>)
    requires OnlyFrame(m, m', g)
    requires forall v :: v in entries ==> IsFrame(FrameOf(entries[v])) && FrameOf(entries[v]) != g
    ensures PagesKept(m, m', entries)
  {
    hide FrameOf, IsFrame, SameFrame;
  }

  /** The frames of a stack together with one more. */
  lemma WithOneMore(pd: int, tables: map<int, int>, stack: seq<StackPage>, table: int)
    requires FramesDiffer(pd, tables, Frames(stack) + [table])
    ensures IsFrame(table) && IsFrame(pd) && pd != table
    ensures forall u :: u in tables ==> IsFrame(tables[u]) && tables[u] != table
    ensures forall x :: x in Frames(stack) ==> IsFrame(x) && x != table
  {
    var free := Frames(stack) + [table];
    assert free[|Frames(stack)|] == table;
    forall i | 0 <= i < |Frames(stack)|
      ensures IsFrame(Frames(stack)[i]) && Frames(stack)[i] != table
    {
      assert free[i] == Frames(stack)[i];
    }
    hide Frames;
  }

  /** A new table that has been cleared is a table without entries. */
  lemma ClearedTable(m: PhysMem, m': PhysMem, pd: int, tables: map<int, int>, large: set<int>, entries: map<int, int>,
                     stack: seq<StackPage>, t: int, table: int)
    requires DirectoryOK(m, pd, tables[t := table], large) && EntriesOK(tables, large, entries) && PagesFit(stack)
    requires forall u :: u in tables && u != STACK_TABLE ==> TableOK(m, u, tables[u], entries)
    requires STACK_TABLE in tables && StackTableOK(m, tables[STACK_TABLE], stack)
    requires forall j :: 0 <= j < |stack| ==> StackPageOK(m, stack[j])
    requires FramesDiffer(pd, tables, Frames(stack) + [table]) && t !in tables && 0 <= t < STACK_TABLE
    requires OnlyFrame(m, m', table) && forall i :: 0 <= i < ENTRIES ==> Load(m', table + 4 * i) == 0
    ensures TablesStored(m', pd, tables[t := table], large, entries, stack)
  {
    hide FramesDiffer, DirectoryOK, TableOK, StackTableOK, StackPageOK, SameFrame, Frames, EntriesOK, IsFrame;
    WithOneMore(pd, tables, stack, table);
    DirectoryFrame(m, m', pd, tables[t := table], large);
    forall u | u in tables && u != STACK_TABLE
      ensures TableOK(m', u, tables[u], entries)
    {
      TableFrame(m, m', u, tables[u], entries);
    }
    EmptyTable(m', t, table, tables, large, entries);
    StackTableFrame(m, m', tables[STACK_TABLE], stack);
    forall j | 0 <= j < |stack|
      ensures StackPageOK(m', stack[j])
    {
      StackFrameFree(stack, j);
      StackPageFrame(m, m', stack[j]);
    }
  }
}
