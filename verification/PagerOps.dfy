/** The pager: the stack of free frames, mapping and unmapping pages, and the kernel heap's pages (memory.c). */
module PagerOps {
  import opened Paging
  import opened BootPaging
  import opened HeapPages
  import opened PagerViews

  class Pager {
    var mem: PhysMem
    var pd: int
    var sp: int
    var heapAddr: nat
    var heapSize: nat

    ghost var stack: seq<StackPage>
    ghost var tables: map<int, int>
    ghost var large: set<int>
    ghost var entries: map<int, int>
    /** The pages mapped by the boot code, the kernel itself and all memory before it: nobody owns their frames. */
    var image: set<int>

    ghost predicate Valid()
      reads `mem, `pd, `sp, `stack, `tables, `large, `entries, `image
    {
      && TablesStored(mem, pd, tables, large, entries, stack) && Distinct(pd, tables, entries - image, Frames(stack))
      && EntriesOK(tables, large, entries) && image <= entries.Keys && StackShape(stack) && sp == PointerOf(stack)
    }

    /** The kernel's memory as the boot code leaves it: no free frames yet, no heap. */
    constructor (m: PhysMem, directory: int, ghost kernelTable: int, ghost stackTable: int, kernelEnd: nat)
      requires BootPages(m, directory, kernelTable, stackTable, kernelEnd)
      ensures Valid() && stack == [] && large == BootLarge() && entries == BootEntries(kernelEnd) && image == entries.Keys
      ensures mem == m && pd == directory && tables == BootTables(kernelTable, stackTable)
    {
      mem, pd, sp := m, directory, STACK_TOP;
      heapAddr, heapSize := 0, 0;
      stack, large, entries, image := [], BootLarge(), BootEntries(kernelEnd), BootEntries(kernelEnd).Keys;
      tables := BootTables(kernelTable, stackTable);
      new;
      hide *;
      BootStored(m, directory, kernelTable, stackTable, kernelEnd);
      ValidIs();
    }

    /** All frames accounted for: free, mapped, page tables and the page directory. */
    ghost function Account(): set<int>
      reads `pd, `tables, `entries, `stack, `image
    {
      Holdings(pd, tables, entries - image, Frames(stack))
    }

    function DirectoryWord(v: nat): int
      reads `mem, `pd
    {
      Load(mem, pd + 4 * (v / 0x40_0000))
    }

    /** Where the page table entry of an address is, through the recursive mapping of the tables. */
    function EntryAddress(v: nat): int
      reads `mem, `pd
    {
      FrameOf(DirectoryWord(v)) + 4 * (v / 4096 % 1024)
    }

    /** set_page */
    method SetPage(v: nat, frame: int, flags: nat) returns (r: int)
      modifies `mem
      ensures r == if !Present(old(DirectoryWord(v))) || Large(old(DirectoryWord(v))) then 1 else 0
      ensures mem == if r == 1 then old(mem) else old(mem)[old(EntryAddress(v)) := FrameOf(frame) + flags % 4096]
    {
      if !Present(DirectoryWord(v)) || Large(DirectoryWord(v)) {
        return 1;
      }
      mem := mem[EntryAddress(v) := FrameOf(frame) + flags % 4096];
      r := 0;
    }

    /** get_page */
    method GetPage(v: nat) returns (r: int, frame: int, flags: int)
      ensures r == if !Present(DirectoryWord(v)) || Large(DirectoryWord(v)) then 1 else 0
      ensures r == 0 ==> frame == FrameOf(Load(mem, EntryAddress(v))) && flags == Load(mem, EntryAddress(v)) % 4096
    {
      if !Present(DirectoryWord(v)) || Large(DirectoryWord(v)) {
        return 1, 0, 0;
      }
      flags := Load(mem, EntryAddress(v)) % 4096;
      frame := FrameOf(Load(mem, EntryAddress(v)));
      r := 0;
    }

    /** page_is_mapped */
    predicate PageIsMapped(v: nat)
      reads `mem, `pd
    {
      && Present(DirectoryWord(v))
      && (Large(DirectoryWord(v)) || Present(Load(mem, EntryAddress(v))))
    }

    /** ptable_is_set */
    predicate TableIsSet(v: nat)
      reads `mem, `pd
    {
      !Large(DirectoryWord(v)) && Present(DirectoryWord(v))
    }

    /** Where an address of a mapped page is in physical memory. */
    function Physical(v: nat): int
      reads `mem, `pd
    {
      FrameOf(Load(mem, EntryAddress(v))) + v % 4096
    }

    /** A frame that is neither free nor in use. */
    ghost predicate Unowned(frame: int)
      reads `pd, `tables, `entries, `stack, `image
    {
      && IsFrame(frame) && frame != pd && frame !in Frames(stack) && frame !in tables.Values
      && forall v :: v in entries && v !in image ==> FrameOf(entries[v]) != frame
    }

    /** What the code reads about the stack's pages. */
    lemma StackFacts(j: nat)
      requires Valid() && j < ENTRIES
      ensures var v := STACK_TOP - PAGE * j - 1;
              && v >= 0 && Present(DirectoryWord(v)) && !Large(DirectoryWord(v)) && STACK_TABLE in tables
              && EntryAddress(v) == StackEntry(tables[STACK_TABLE], j)
              && (PageIsMapped(v) <==> j < |stack|)
              && (j < |stack| ==> Load(mem, EntryAddress(v)) == stack[j].frame + PRESENT + WRITE
                                  && FrameOf(Load(mem, EntryAddress(v))) == stack[j].frame && IsFrame(stack[j].frame))
      ensures |stack| < ENTRIES && PointerOf(stack) > STACK_BOTTOM
    {
      NeverFull(stack, pd, tables);
      StackAddress(j, 1);
      StackTableEntry(mem, pd, tables, large, entries, stack, j);
      if j < |stack| {
        StackFrameFree(stack, j);
        EntryOf(stack[j].frame, PRESENT + WRITE);
      }
      hide TablesStored, Distinct, EntriesOK, StackShape;
    }

    /** Which page of the stack the pointer is in. */
    lemma PointerFacts()
      requires Valid()
      ensures |stack| < ENTRIES && STACK_BOTTOM < sp <= STACK_TOP && STACK_TABLE in tables
      ensures sp % 4096 == 0 <==> stack == [] || |stack[|stack| - 1].words| == 0 || |stack[|stack| - 1].words| == WORDS
      ensures stack == [] ==> sp == STACK_TOP
      ensures stack != [] && |stack[|stack| - 1].words| == 0 ==> sp == STACK_TOP - PAGE * (|stack| - 1)
      ensures stack != [] && |stack[|stack| - 1].words| == WORDS ==> sp == STACK_TOP - PAGE * |stack|
      ensures stack != [] ==> sp == STACK_TOP - PAGE * (|stack| - 1) - 4 * |stack[|stack| - 1].words|
                              && |stack[|stack| - 1].words| <= WORDS
      ensures PagesFit(stack)
    {
      NeverFull(stack, pd, tables);
      ShapeFits(stack);
      hide TablesStored, Distinct, EntriesOK;
    }

    lemma FreePushed(frame: int)
      requires Distinct(pd, tables, entries - image, Frames(stack)) && Unowned(frame)
      ensures Distinct(pd, tables, entries - image, Frames(stack) + [frame]) && IsFrame(frame)
    {
      hide Frames;
      OwnedOnly(entries, image, frame);
      UnownedIs(frame, pd, tables, entries - image, Frames(stack));
    }

    ghost predicate LastFull()
      reads `stack
    {
      stack == [] || |stack[|stack| - 1].words| == WORDS
    }

    /** The test for a new page is right: it is true exactly when no page has room for another word. */
    lemma PushTest()
      requires Valid()
      ensures sp > STACK_BOTTOM && sp >= 4 && |stack| < ENTRIES
      ensures sp % 4096 == 0 && !PageIsMapped(sp - 1) <==> LastFull()
      ensures LastFull() ==> sp == STACK_TOP - PAGE * |stack|
      ensures !LastFull() ==>
                var last := stack[|stack| - 1];
                sp == STACK_TOP - PAGE * (|stack| - 1) - 4 * |last.words| && |last.words| < WORDS
    {
      hide Valid, PageIsMapped;
      PointerFacts();
      StackFacts(|stack|);
      if stack != [] {
        StackFacts(|stack| - 1);
      }
    }

    lemma ValidIs()
      ensures Valid() <==> TablesStored(mem, pd, tables, large, entries, stack) && Distinct(pd, tables, entries - image, Frames(stack))
                           && EntriesOK(tables, large, entries) && image <= entries.Keys && StackShape(stack)
                           && sp == PointerOf(stack)
      ensures Valid() ==> FramesDiffer(pd, tables, Frames(stack))
    {
    }

    lemma PushPage(frame: int)
      requires Valid() && IsFrame(frame) && LastFull() && sp >= 1
      ensures Present(DirectoryWord(sp - 1)) && !Large(DirectoryWord(sp - 1))
      ensures TablesStored(mem[EntryAddress(sp - 1) := FrameOf(frame) + (PRESENT + WRITE) % 4096], pd, tables, large, entries,
                     stack + [StackPage(frame, [])])
      ensures Frames(stack + [StackPage(frame, [])]) == Frames(stack) + [frame]
      ensures StackShape(stack + [StackPage(frame, [])]) && PointerOf(stack + [StackPage(frame, [])]) == sp
      ensures PagesKept(mem, mem[EntryAddress(sp - 1) := FrameOf(frame) + (PRESENT + WRITE) % 4096], entries - image)
    {
      hide *;
      ValidIs();
      MappedApart(pd, tables, entries - image, Frames(stack));
      PushTest();
      PointerFacts();
      StackFacts(|stack|);
      FramesAppendPage(stack, frame);
      FlagsFit(frame);
      LastFullIs();
      PushedPage(stack, frame);
      StoredTable(mem, pd, tables, large, entries, stack);
      EntryWritten(mem, tables[STACK_TABLE], stack, frame);
      OnlyNew(stack, frame);
      StackEntryIn(tables[STACK_TABLE], |stack|);
      WriteStackTable(mem, pd, tables, large, entries, stack, stack + [StackPage(frame, [])],
                      StackEntry(tables[STACK_TABLE], |stack|), frame + PRESENT + WRITE);
      PagesKeptWrite(mem, tables[STACK_TABLE], StackEntry(tables[STACK_TABLE], |stack|), frame + PRESENT + WRITE, entries - image);
    }

    lemma LastFullIs()
      ensures LastFull() <==> stack == [] || |stack[|stack| - 1].words| == WORDS
    {
    }

    lemma PushWord(frame: int)
      requires Valid() && !LastFull()
      ensures stack != [] && sp >= 4
      ensures TablesStored(mem[Physical(sp - 4) := frame], pd, tables, large, entries, Noted(stack, frame))
      ensures Frames(Noted(stack, frame)) == Frames(stack) + [frame]
      ensures StackShape(Noted(stack, frame)) && PointerOf(Noted(stack, frame)) == sp - 4
      ensures PagesKept(mem, mem[Physical(sp - 4) := frame], entries - image)
    {
      hide *;
      ValidIs();
      MappedApart(pd, tables, entries - image, Frames(stack));
      LastFullIs();
      PushTest();
      PointerFacts();
      var last := stack[|stack| - 1];
      StackFacts(|stack| - 1);
      WordAddress(|stack| - 1, |last.words|, last.frame);
      PhysicalIs(sp - 4);
      PhysicalIs(STACK_TOP - PAGE * (|stack| - 1) - 1);
      FramesNoted(stack, frame);
      NotedShape(stack, frame);
      WriteStackPage(mem, pd, tables, large, entries, stack, frame);
      StackFrameFree(stack, |stack| - 1);
      SlotIn(last.frame, |last.words|);
      PagesKeptWrite(mem, last.frame, SlotOf(last.frame, |last.words|), frame, entries - image);
    }

    /** pstack_push: the frame goes on top of the stack, as the page that is to hold the frames pushed after it or
        noted in such a page.  The stack is never full. */
    method StackPush(frame: int) returns (r: int)
      requires Valid() && Unowned(frame)
      modifies `mem, `sp, `stack
      ensures Valid() && r == 0 && Frames(stack) == Frames(old(stack)) + [frame]
      ensures PagesKept(old(mem), mem, entries - image)
    {
      hide *;
      ValidIs();
      PushTest();
      FreePushed(frame);
      if sp == STACK_BOTTOM {
        assert false;
      }
      if sp % 4096 == 0 && !PageIsMapped(sp - 1) {
        PushPage(frame);
        r := SetPage(sp - 1, frame, PRESENT + WRITE);
        stack := stack + [StackPage(frame, [])];
      } else {
        PushWord(frame);
        sp := sp - 4;
        mem := mem[Physical(sp) := frame];
        stack := Noted(stack, frame);
        r := 0;
      }
      ValidIs();
    }

    ghost predicate LastEmpty()
      reads `stack
    {
      stack != [] && stack[|stack| - 1].words == []
    }

    lemma LastEmptyIs()
      ensures LastEmpty() <==> stack != [] && stack[|stack| - 1].words == []
    {
    }

    /** The test for an empty page is right, and so is the one for an empty stack. */
    lemma PopTest()
      requires Valid()
      ensures 4 <= sp <= STACK_TOP
      ensures sp % 4096 == 0 && PageIsMapped(sp - 1) <==> LastEmpty()
      ensures !LastEmpty() ==> (sp >= STACK_TOP <==> stack == [])
    {
      hide *;
      PushTest();
      PointerFacts();
      LastFullIs();
      LastEmptyIs();
      TopIs();
    }

    lemma TopIs()
      ensures STACK_TOP % 4096 == 0 && PAGE * 1 == PAGE && WORDS > 0
      ensures forall n: nat, k: nat :: n > 0 || k > 0 ==> STACK_TOP - PAGE * n - 4 * k < STACK_TOP
    {
    }

    lemma PopPage()
      requires Valid() && LastEmpty() && sp >= 1
      ensures stack != [] && Present(DirectoryWord(sp - 1)) && !Large(DirectoryWord(sp - 1))
      ensures FrameOf(Load(mem, EntryAddress(sp - 1))) == stack[|stack| - 1].frame
      ensures TablesStored(mem[EntryAddress(sp - 1) := FrameOf(0) + 0 % 4096], pd, tables, large, entries, stack[..|stack| - 1])
      ensures Frames(stack) == Frames(stack[..|stack| - 1]) + [stack[|stack| - 1].frame]
      ensures StackShape(stack[..|stack| - 1]) && PointerOf(stack[..|stack| - 1]) == sp
      ensures PagesKept(mem, mem[EntryAddress(sp - 1) := FrameOf(0) + 0 % 4096], entries - image)
    {
      hide *;
      ValidIs();
      MappedApart(pd, tables, entries - image, Frames(stack));
      LastEmptyIs();
      PointerFacts();
      var n := |stack| - 1;
      StackFacts(n);
      NoEntry();
      StoredTable(mem, pd, tables, large, entries, stack);
      EntryCleared(mem, tables[STACK_TABLE], stack);
      StackEntryIn(tables[STACK_TABLE], n);
      OnlyOld(stack);
      WriteStackTable(mem, pd, tables, large, entries, stack, stack[..n], StackEntry(tables[STACK_TABLE], n), 0);
      PagesKeptWrite(mem, tables[STACK_TABLE], StackEntry(tables[STACK_TABLE], n), 0, entries - image);
      FramesUnroll(stack);
      PoppedPage(stack);
    }

    lemma PopWord()
      requires Valid() && !LastEmpty() && stack != []
      ensures sp >= 0 && stack[|stack| - 1].words != []
      ensures var last := stack[|stack| - 1];
              && Load(mem, Physical(sp)) == last.words[|last.words| - 1]
              && Frames(stack) == Frames(Unnoted(stack)) + [last.words[|last.words| - 1]]
      ensures TablesStored(mem, pd, tables, large, entries, Unnoted(stack))
      ensures StackShape(Unnoted(stack)) && PointerOf(Unnoted(stack)) == sp + 4
    {
      hide *;
      ValidIs();
      LastEmptyIs();
      PointerFacts();
      var n := |stack| - 1;
      var last := stack[n];
      StackFacts(n);
      WordAddress(n, |last.words| - 1, last.frame);
      PhysicalIs(sp);
      PhysicalIs(STACK_TOP - PAGE * n - 1);
      LastWordStored(mem, pd, tables, large, entries, stack);
      FramesUnnoted(stack);
      UnnotedShape(stack);
    }

    lemma FreePopped(free: seq<int>, frame: int)
      requires Distinct(pd, tables, entries - image, free) && free == Frames(stack) + [frame]
      ensures Distinct(pd, tables, entries - image, Frames(stack)) && Unowned(frame)
    {
      hide Frames;
      OwnedNot(frame, pd, tables, entries - image, Frames(stack));
      OwnedOnly(entries, image, frame);
    }

    /** pstack_pop: the frame pushed last.  A page of the stack that holds nothing any more is returned itself. */
    method StackPop() returns (r: int, frame: int)
      requires Valid()
      modifies `mem, `sp, `stack
      ensures Valid() && (r == 0 <==> Frames(old(stack)) != []) && (r == 0 || r == 1)
      ensures r == 0 ==> Frames(old(stack)) == Frames(stack) + [frame] && Unowned(frame)
      ensures r == 1 ==> Frames(stack) == []
      ensures PagesKept(old(mem), mem, entries - image)
    {
      hide *;
      ValidIs();
      PagesSame(mem, entries - image);
      PopTest();
      LastEmptyIs();
      NoEntry();
      r, frame := 1, 0;
      FramesEmpty(stack);
      if sp % 4096 == 0 && PageIsMapped(sp - 1) {
        PopPage();
        var flags;
        r, frame, flags := GetPage(sp - 1);
        var result := SetPage(sp - 1, 0, 0);
        stack := stack[..|stack| - 1];
        ValidIs();
        FreePopped(Frames(old(stack)), frame);
        return;
      }
      if sp >= STACK_TOP {
        return;
      }
      PopWord();
      frame := Load(mem, Physical(sp));
      sp := sp + 4;
      stack := Unnoted(stack);
      FreePopped(Frames(old(stack)), frame);
      ValidIs();
      r := 0;
    }

    /** What the code reads about an address below the stack. */
    lemma AddressFacts(v: nat)
      requires Valid() && v < STACK_BOTTOM
      ensures var page := v / 4096;
              && v / 0x40_0000 == page / 1024 && 0 <= page / 1024 < STACK_TABLE && page < ENTRIES * STACK_TABLE
              && (TableIsSet(v) <==> page / 1024 in tables) && (PageIsMapped(v) <==> page in entries || page / 1024 in large)
              && (page / 1024 in tables ==> EntryAddress(v) == tables[page / 1024] + 4 * (page % 1024) && page / 1024 !in large)
              && (Present(DirectoryWord(v)) && !Large(DirectoryWord(v)) <==> page / 1024 in tables)
              && (page in entries ==> page / 1024 in tables && Load(mem, EntryAddress(v)) == entries[page])
    {
      PageNumber(v);
      DirectoryAt(mem, pd, tables, large, entries, stack, v / 0x40_0000);
      EntryAt(mem, pd, tables, large, entries, stack, v / 4096);
      hide TablesStored, Distinct, StackShape;
    }

    /** A page gets an entry. */
    lemma MapPage(v: nat, frame: int, flags: nat)
      requires Valid() && v < STACK_BOTTOM && TableIsSet(v) && v / 4096 !in entries
      requires Unowned(frame) && flags < 128 && flags % 2 == 1
      ensures var entries' := entries[v / 4096 := frame + flags];
              && TablesStored(mem[EntryAddress(v) := FrameOf(frame) + flags % 4096], pd, tables, large, entries', stack)
              && Distinct(pd, tables, entries' - image, Frames(stack)) && EntriesOK(tables, large, entries')
              && image <= entries'.Keys
      ensures Present(DirectoryWord(v)) && !Large(DirectoryWord(v))
      ensures PagesKept(mem, mem[EntryAddress(v) := FrameOf(frame) + flags % 4096], entries - image)
    {
      hide *;
      var page, w := v / 4096, frame + flags;
      ValidIs();
      AddressFacts(v);
      TableWritten(v, w);
      UnownedFacts(frame);
      OwnedOnly(entries, image, frame);
      FlagBounds(frame, flags);
      assert entries[page := w] - {page} == entries - {page};
      WritePage(mem, pd, tables, large, entries, entries[page := w], stack, page, w);
      assert entries[page := w] - image == (entries - image)[page := w];
      EntryDistinct(pd, tables, entries - image, Frames(stack), page, frame, flags);
      EntryBounds(tables, large, entries, page, w);
    }

    /** A word of the page table of an address is written. */
    lemma TableWritten(v: nat, w: int)
      requires Valid() && v < STACK_BOTTOM && v / 4096 / 1024 in tables
      ensures PagesKept(mem, mem[EntryAddress(v) := w], entries - image)
    {
      hide *;
      ValidIs();
      AddressFacts(v);
      MappedApart(pd, tables, entries - image, Frames(stack));
      TableEntryIn(tables[v / 4096 / 1024], v / 4096 % 1024);
      PagesKeptWrite(mem, tables[v / 4096 / 1024], EntryAddress(v), w, entries - image);
    }

    lemma UnownedFacts(frame: int)
      requires Unowned(frame)
      ensures IsFrame(frame) && frame != pd && frame !in Frames(stack) && frame !in tables.Values
      ensures forall v :: v in entries && v !in image ==> FrameOf(entries[v]) != frame
    {
    }

    /** A page loses its entry. */
    lemma UnmapPage(v: nat)
      requires Valid() && v < STACK_BOTTOM && v / 4096 in entries
      requires v / 4096 in image ==> Unowned(FrameOf(entries[v / 4096]))
      ensures Present(DirectoryWord(v)) && !Large(DirectoryWord(v)) && Load(mem, EntryAddress(v)) == entries[v / 4096]
      ensures TablesStored(mem[EntryAddress(v) := FrameOf(0) + 0 % 4096], pd, tables, large, entries - {v / 4096}, stack)
      ensures Distinct(pd, tables, entries - {v / 4096} - (image - {v / 4096}), Frames(stack))
      ensures EntriesOK(tables, large, entries - {v / 4096}) && image - {v / 4096} <= (entries - {v / 4096}).Keys
      ensures var frame, image' := FrameOf(entries[v / 4096]), image - {v / 4096};
              && IsFrame(frame) && frame != pd && frame !in Frames(stack) && frame !in tables.Values
              && forall u :: u in entries - {v / 4096} && u !in image' ==> FrameOf((entries - {v / 4096})[u]) != frame
      ensures PagesKept(mem, mem[EntryAddress(v) := FrameOf(0) + 0 % 4096], entries - image)
    {
      hide *;
      var page := v / 4096;
      ValidIs();
      AddressFacts(v);
      TableWritten(v, 0);
      NoEntry();
      assert entries - {page} - {page} == entries - {page};
      WritePage(mem, pd, tables, large, entries, entries - {page}, stack, page, 0);
      OwnedAfter(entries, image, page);
      EntryBounds(tables, large, entries, page, 0);
      OwnedOnly(entries - {page}, image - {page}, FrameOf(entries[page]));
      if page in image {
        UnownedFacts(FrameOf(entries[page]));
        OwnedOnly(entries, image, FrameOf(entries[page]));
      } else {
        EntryLeaves(pd, tables, entries - image, Frames(stack), page);
      }
    }

    /** The entries of a new table are cleared through the recursive mapping. */
    method ClearTable(v: nat, ghost table: int)
      requires FrameOf(DirectoryWord(v)) == table && IsFrame(pd) && IsFrame(table) && pd != table && v < STACK_BOTTOM
      modifies `mem
      ensures OnlyFrame(old(mem), mem, table) && forall i :: 0 <= i < ENTRIES ==> Load(mem, table + 4 * i) == 0
    {
      hide *;
      ghost var m1 := mem;
      SameOnly(m1, table);
      DirectoryApart(pd, table, v);
      var i := 0;
      while i < ENTRIES
        invariant 0 <= i <= ENTRIES && OnlyFrame(m1, mem, table) && FrameOf(DirectoryWord(v)) == table
        invariant forall k :: 0 <= k < i ==> Load(mem, table + 4 * k) == 0
      {
        ClearOne(m1, mem, table, i);
        DirectoryIs(v);
        WordKept(mem, pd, table, i, v);
        mem := mem[FrameOf(DirectoryWord(v)) + 4 * i := 0];
        DirectoryIs(v);
        i := i + 1;
      }
    }

    /** set_page_table */
    method SetPageTable(v: nat, table: int)
      requires Valid() && v < STACK_BOTTOM && !TableIsSet(v) && !PageIsMapped(v) && Unowned(table)
      modifies `mem, `tables
      ensures Valid() && tables == old(tables)[v / 4096 / 1024 := table]
      ensures PagesKept(old(mem), mem, entries - image)
    {
      hide *;
      BeforeTable(v, table);
      DirectoryWritten(v, table, FrameOf(table) + (PRESENT + WRITE) % 4096);
      mem := mem[pd + 4 * (v / 0x40_0000) := FrameOf(table) + (PRESENT + WRITE) % 4096];
      ghost var m1 := mem;
      DirectoryIs(v);
      ClearTable(v, table);
      PagesKeptOnly(m1, mem, table, entries - image);
      PagesKeptTrans(old(mem), m1, mem, entries - image);
      ClearedTable(m1, mem, pd, tables, large, entries, stack, v / 4096 / 1024, table);
      tables := tables[v / 4096 / 1024 := table];
      ValidIs();
    }

    lemma DirectoryWritten(v: nat, table: int, w: int)
      requires Valid() && v < STACK_BOTTOM && Unowned(table)
      ensures PagesKept(mem, mem[pd + 4 * (v / 0x40_0000) := w], entries - image)
      ensures forall u :: u in entries - image ==> IsFrame(FrameOf((entries - image)[u])) && FrameOf((entries - image)[u]) != table
    {
      hide *;
      ValidIs();
      MappedApart(pd, tables, entries - image, Frames(stack));
      DirectoryApart(pd, table, v);
      PagesKeptWrite(mem, pd, pd + 4 * (v / 0x40_0000), w, entries - image);
      UnownedFacts(table);
      OwnedOnly(entries, image, table);
    }

    lemma BeforeTable(v: nat, table: int)
      requires Valid() && v < STACK_BOTTOM && !TableIsSet(v) && !PageIsMapped(v) && Unowned(table)
      ensures var m1, t := mem[pd + 4 * (v / 0x40_0000) := FrameOf(table) + (PRESENT + WRITE) % 4096], v / 4096 / 1024;
              && FrameOf(Load(m1, pd + 4 * (v / 0x40_0000))) == table
              && DirectoryOK(m1, pd, tables[t := table], large) && STACK_TABLE in tables
              && (forall u :: u in tables && u != STACK_TABLE ==> TableOK(m1, u, tables[u], entries))
              && StackTableOK(m1, tables[STACK_TABLE], stack)
              && (forall j :: 0 <= j < |stack| ==> StackPageOK(m1, stack[j]))
              && t !in tables && 0 <= t < STACK_TABLE
              && Distinct(pd, tables[t := table], entries - image, Frames(stack)) && EntriesOK(tables[t := table], large, entries)
      ensures IsFrame(pd) && IsFrame(table) && pd != table && PagesFit(stack) && EntriesOK(tables, large, entries)
      ensures FramesDiffer(pd, tables, Frames(stack) + [table]) && StackShape(stack) && sp == PointerOf(stack)
      ensures image <= entries.Keys
    {
      hide *;
      var t := v / 4096 / 1024;
      ValidIs();
      AddressFacts(v);
      UnownedFacts(table);
      OwnedOnly(entries, image, table);
      FlagsFit(table);
      ShapeFits(stack);
      FreeWith(pd, tables, entries - image, stack, table);
      WriteDirectory(mem, pd, tables, large, entries, stack, t, table);
      NewDirectory(mem[pd + 4 * t := table + PRESENT + WRITE], pd, tables[t := table], large, t);
      NewTable(pd, tables, large, entries, entries - image, stack, t, table);
    }

    lemma DirectoryIs(v: nat)
      ensures DirectoryWord(v) == Load(mem, pd + 4 * (v / 0x40_0000))
    {
    }

    lemma FoldUnowned(frame: int)
      requires IsFrame(frame) && frame != pd && frame !in Frames(stack) && frame !in tables.Values
      requires forall v :: v in entries && v !in image ==> FrameOf(entries[v]) != frame
      ensures Unowned(frame)
    {
    }

    /** The part of memory_allocate_page that adds a missing page table; without a frame for it, the frame already
        taken goes back. */
    method AddTable(v: nat, frame: int) returns (r: int, table: int)
      requires Valid() && v < STACK_BOTTOM && !TableIsSet(v) && !PageIsMapped(v) && Unowned(frame)
      modifies `mem, `sp, `stack, `tables
      ensures Valid() && PagesKept(old(mem), mem, entries - image) && (r == 0 || r == 1)
      ensures r == 1 ==> Frames(old(stack)) == [] && Frames(stack) == [frame] && tables == old(tables)
      ensures r == 0 ==>
                && Frames(old(stack)) == Frames(stack) + [table] && tables == old(tables)[v / 4096 / 1024 := table]
                && Unowned(frame) && TableIsSet(v)
    {
      hide *;
      ghost var free, tables0, m0 := Frames(stack), tables, mem;
      UnownedFacts(frame);
      AddressFacts(v);
      r, table := StackPop();
      ghost var m1 := mem;
      if r != 0 {
        LengthOne(free, Frames(stack));
        FoldUnowned(frame);
        var result := StackPush(frame);
        PagesKeptTrans(m0, m1, mem, entries - image);
        return 1, 0;
      }
      LengthMore(free, Frames(stack), table);
      AddressFacts(v);
      SetPageTable(v, table);
      PagesKeptTrans(m0, m1, mem, entries - image);
      AddressFacts(v);
      TableSet(tables0, v / 4096 / 1024, table, frame, free, Frames(stack));
      FoldUnowned(frame);
    }

    /** The part of memory_allocate_page that writes the entry. */
    method MapFrame(v: nat, frame: int, flags: nat) returns (r: int)
      requires Valid() && v < STACK_BOTTOM && TableIsSet(v) && v / 4096 !in entries
      requires Unowned(frame) && flags < 128 && flags % 2 == 1
      modifies `mem, `entries
      ensures Valid() && r == 0 && entries == old(entries)[v / 4096 := frame + flags]
      ensures PagesKept(old(mem), mem, old(entries) - image)
    {
      hide *;
      ValidIs();
      MapPage(v, frame, flags);
      r := SetPage(v, frame, flags);
      entries := entries[v / 4096 := frame + flags];
      ValidIs();
    }

    /** The part of memory_allocate_page that has a frame for the page. */
    method AddPage(v: nat, frame: int, flags: nat) returns (r: int, ghost table: int)
      requires Valid() && v < STACK_BOTTOM && !PageIsMapped(v) && Unowned(frame) && flags < 128 && flags % 2 == 1
      modifies `mem, `sp, `stack, `tables, `entries
      ensures Valid() && PagesKept(old(mem), mem, old(entries) - image) && (r == 0 || r == 1)
      ensures r == 1 ==>
                && v / 4096 / 1024 !in old(tables) && Frames(old(stack)) == [] && Frames(stack) == [frame]
                && tables == old(tables) && entries == old(entries)
      ensures r == 0 ==> entries == old(entries)[v / 4096 := frame + flags]
      ensures r == 0 && v / 4096 / 1024 in old(tables) ==> tables == old(tables) && Frames(stack) == Frames(old(stack))
      ensures r == 0 && v / 4096 / 1024 !in old(tables) ==>
                Frames(old(stack)) == Frames(stack) + [table] && tables == old(tables)[v / 4096 / 1024 := table]
    {
      hide *;
      ghost var owned, m0 := entries - image, mem;
      PagesSame(mem, owned);
      table := 0;
      AddressFacts(v);
      if !TableIsSet(v) {
        r, table := AddTable(v, frame);
        if r != 0 {
          return;
        }
        AddressFacts(v);
      }
      ghost var m1 := mem;
      r := MapFrame(v, frame, flags);
      PagesKeptTrans(m0, m1, mem, owned);
    }

    /** The part of memory_allocate_page from the first frame on: it is mapped, or goes back. */
    method UsePage(v: nat, frame: int, flags: nat, ghost free: seq<int>) returns (r: int)
      requires Valid() && v < STACK_BOTTOM && !PageIsMapped(v) && v / 4096 !in entries && Unowned(frame)
      requires flags < 128 && flags % 2 == 1 && free == Frames(stack) + [frame]
      modifies `mem, `sp, `stack, `tables, `entries
      ensures Valid() && (r == 0 || r == 1) && PagesKept(old(mem), mem, old(entries) - image)
      ensures r == 0 <==> v / 4096 / 1024 in old(tables) || |free| >= 2
      ensures r == 0 ==> AfterAllocate(free, old(tables), old(entries), Frames(stack), tables, entries, v / 4096, flags)
      ensures r == 1 ==> Frames(stack) == free && tables == old(tables) && entries == old(entries)
      ensures Account() == Holdings(pd, old(tables), old(entries) - image, free)
    {
      hide *;
      ghost var free1, tables0, entries0, image0 := Frames(stack), tables, entries, image;
      ImageMapped();
      UnownedFacts(frame);
      ghost var table;
      r, table := AddPage(v, frame, flags);
      AccountIs();
      if r != 0 {
        LengthBack(free, free1, frame);
        return;
      }
      AllocatedIs(free, free1, frame, table, tables0, entries0, Frames(stack), tables, entries, v / 4096, flags);
      FlagBounds(frame, flags);
      AllocateHolds(pd, tables0, entries0, image0, free, tables, entries, Frames(stack), v / 4096, flags);
    }

    /** memory_allocate_page: the last free frame is mapped, the one before it becomes the page table if there was
        none.  It fails, and changes nothing, if the page is mapped already or there are too few frames. */
    method MemoryAllocatePage(v: nat, usermode: bool, writable: bool) returns (r: int)
      requires Valid() && v < STACK_BOTTOM
      modifies `mem, `sp, `stack, `tables, `entries
      ensures Valid() && (r == 0 || r == 1)
      ensures r == 1 ==> Frames(stack) == Frames(old(stack)) && tables == old(tables) && entries == old(entries)
      ensures r == 0 <==> Allocates(Frames(old(stack)), old(tables), large, old(entries), v / 4096)
      ensures r == 0 ==>
                AfterAllocate(Frames(old(stack)), old(tables), old(entries), Frames(stack), tables, entries, v / 4096,
                              PRESENT + (if usermode then USER else 0) + if writable then WRITE else 0)
      ensures Account() == old(Account()) && PagesKept(old(mem), mem, old(entries) - image)
    {
      hide *;
      ghost var free, owned, m0 := Frames(stack), entries - image, mem;
      PagesSame(mem, owned);
      AccountIs();
      AddressFacts(v);
      AllocatesIs(free, tables, large, entries, v / 4096);
      if PageIsMapped(v) {
        return 1;
      }
      var result, frame := StackPop();
      if result != 0 {
        LengthOne(free, Frames(stack));
        AccountIs();
        return 1;
      }
      LengthMore(free, Frames(stack), frame);
      var flags := PRESENT;
      if usermode {
        flags := flags + USER;
      }
      if writable {
        flags := flags + WRITE;
      }
      FlagsAre(usermode, writable);
      AddressFacts(v);
      ghost var m1 := mem;
      r := UsePage(v, frame, flags, free);
      PagesKeptTrans(m0, m1, mem, owned);
    }

    lemma AccountIs()
      ensures Account() == Holdings(pd, tables, entries - image, Frames(stack))
    {
    }

    lemma ImageMapped()
      requires Valid()
      ensures image <= entries.Keys
    {
    }

    /** memory_free_page: the page loses its entry and its frame is pushed.  A large page, or none, is left alone.  A page
        of the boot code can be given away like that, unless the page directory or a page table is in it. */
    method MemoryFreePage(v: nat) returns (r: int)
      requires Valid() && v < STACK_BOTTOM
      requires v / 4096 in image && v / 4096 in entries ==> Unowned(FrameOf(entries[v / 4096]))
      modifies `mem, `sp, `stack, `entries, `image
      ensures Valid() && (r == 0 || r == 1) && (r == 0 <==> v / 4096 in old(entries))
      ensures r == 1 ==> Frames(stack) == Frames(old(stack)) && entries == old(entries)
      ensures r == 0 ==> Frames(stack) == Frames(old(stack)) + [FrameOf(old(entries)[v / 4096])]
                         && entries == old(entries) - {v / 4096}
      ensures image == if r == 0 then old(image) - {v / 4096} else old(image)
      ensures Account() == old(Account()) + if r == 0 then {FrameOf(old(entries)[v / 4096])} else {}
      ensures v / 4096 !in old(image) ==> Account() == old(Account()) && image == old(image)
      ensures PagesKept(old(mem), mem, entries - image)
    {
      hide *;
      ghost var entries0, image0, free := entries, image, Frames(stack);
      PagesSame(mem, entries - image);
      assert Account() + {} == Account();
      AccountIs();
      AddressFacts(v);
      if !PageIsMapped(v) {
        return 1;
      }
      var result, frame, flags := GetPage(v);
      if result != 0 {
        return 1;
      }
      ValidIs();
      UnmapPage(v);
      result := SetPage(v, 0, 0);
      if result != 0 {
        assert false;
      }
      entries := entries - {v / 4096};
      image := image - {v / 4096};
      ValidIs();
      FoldUnowned(frame);
      ghost var m1 := mem;
      OwnedAfter(entries0, image0, v / 4096);
      PagesKeptSub(old(mem), m1, entries0 - image0, entries - image);
      r := StackPush(frame);
      PagesKeptTrans(old(mem), m1, mem, entries - image);
      FreeHolds(pd, tables, entries0, image0, free, v / 4096);
      AccountIs();
    }

    /** The pages from first down to the one after last are freed. */
    method FreePages(first: nat, last: nat)
      requires Valid() && first % 4096 == 0 && last % 4096 == 0 && last <= first < STACK_BOTTOM
      requires Givable(pd, tables, entries, image, Frames(stack), Pages(last / 4096, first / 4096))
      modifies `mem, `sp, `stack, `entries, `image
      ensures Valid() && PagesKept(old(mem), mem, entries - image)
      ensures var pages := Pages(last / 4096, first / 4096);
              && entries == old(entries) - pages && image == old(image) - pages
              && Account() == old(Account()) + Given(old(entries), old(image), pages)
      ensures View() == old(View()).FreePages(first / 4096, last / 4096)
    {
      hide *;
      ghost var entries0, image0, account, v0 := entries, image, Account(), View();
      PagesNone(first / 4096);
      NoneGiven(entries, image, {});
      ImageMapped();
      PagesSame(mem, entries - image);
      assert account + {} == account;
      var page := first;
      while page > last
        invariant last <= page <= first && page % 4096 == 0
        invariant Valid() && PagesKept(old(mem), mem, entries - image)
        invariant entries == entries0 - Pages(page / 4096, first / 4096) && image == image0 - Pages(page / 4096, first / 4096)
        invariant Account() == account + Given(entries0, image0, Pages(page / 4096, first / 4096))
        invariant Givable(pd, tables, entries, image, Frames(stack), Pages(last / 4096, page / 4096))
        invariant View().FreePages(page / 4096, last / 4096) == v0.FreePages(first / 4096, last / 4096)
      {
        ghost var v1 := View();
        ViewIs();
        FreeStep(v1, page / 4096, last / 4096);
        ghost var m1, entries1, image1, free1, p := mem, entries, image, Frames(stack), page / 4096;
        PagesBelow(p, first / 4096);
        PagesAbove(last / 4096, p - 1);
        GivableOne(pd, tables, entries, image, free1, Pages(last / 4096, p), p);
        if p in entries1 {
          NotOwnedIs(FrameOf(entries1[p]));
        }
        ImageMapped();
        var r := MemoryFreePage(page);
        ViewIs();
        FreeIs(v1, p, View());
        OwnedAfter(entries1, image1, p);
        FreedOne(entries1, image1, entries, image, p, r == 0);
        PagesKeptSub(old(mem), m1, entries1 - image1, entries - image);
        PagesKeptTrans(old(mem), m1, mem, entries - image);
        GivableNext(pd, tables, entries1, image1, free1, entries, image, Frames(stack), Pages(last / 4096, p - 1), p, r == 0);
        GivenNext(entries0, image0, Pages(p, first / 4096), p, account, r == 0);
        page := page - 4096;
      }
      FreeStep(View(), page / 4096, last / 4096);
    }

    lemma NotOwnedIs(frame: int)
      ensures Unowned(frame) <==> NotOwned(frame, pd, tables, entries, image, Frames(stack))
    {
    }

    /** The pages after the one at current up to the one at newEnd are mapped, until that fails. */
    method GrowPages(current: nat, newEnd: nat) returns (failed: bool, page: nat)
      requires Valid() && current % 4096 == 0 && newEnd % 4096 == 0 && current <= newEnd < STACK_BOTTOM
      modifies `mem, `sp, `stack, `tables, `entries
      ensures Valid() && Account() == old(Account()) && PagesKept(old(mem), mem, old(entries) - image)
      ensures page % 4096 == 0 && current + 4096 <= page && if failed then page <= newEnd else page == newEnd + 4096
      ensures Grown(old(entries), entries, current / 4096, page / 4096 - 1)
      ensures TablesGrown(old(tables), tables, current / 4096, newEnd / 4096)
      ensures !failed <==> CanGrow(|Frames(old(stack))|, old(tables).Keys, large, old(entries).Keys,
                                   current / 4096 + 1, newEnd / 4096)
      ensures View() == old(View()).MapPages(current / 4096 + 1, newEnd / 4096)
      ensures page / 4096 == old(View()).FirstRefused(current / 4096 + 1, newEnd / 4096)
    {
      hide *;
      ghost var free, tables0, entries0, c, n := Frames(stack), tables, entries, current / 4096, newEnd / 4096;
      ghost var v0 := View();
      NothingGrown(entries, tables, c, n);
      ghost var owned := entries - image;
      PagesSame(mem, owned);
      failed, page := false, current + 4096;
      while page <= newEnd
        invariant !failed && page % 4096 == 0 && current + 4096 <= page <= newEnd + 4096
        invariant Valid() && Account() == old(Account()) && PagesKept(old(mem), mem, owned)
        invariant Grown(entries0, entries, c, page / 4096 - 1) && TablesGrown(tables0, tables, c, n)
        invariant CanGrow(|free|, tables0.Keys, large, entries0.Keys, c + 1, n) <==>
                  CanGrow(|Frames(stack)|, tables.Keys, large, entries0.Keys, page / 4096, n)
        invariant View().MapPages(page / 4096, n) == v0.MapPages(c + 1, n)
        invariant View().FirstRefused(page / 4096, n) == v0.FirstRefused(c + 1, n)
      {
        ghost var v1 := View();
        ViewIs();
        MapStep(v1, page / 4096, n);
        CanMapIs(v1, page / 4096);
        ghost var p, free1, tables1, entries1 := page / 4096, Frames(stack), tables, entries;
        CanGrowStep(|free1|, tables.Keys, large, entries0.Keys, p, n);
        NotYet(entries0, entries, c, p);
        AllocatesIs(free1, tables, large, entries, p);
        FreeFrames();
        ghost var m1 := mem;
        var r := MemoryAllocatePage(page, false, true);
        ViewIs();
        GrownOwned(entries0, entries1, image, c, page / 4096 - 1);
        PagesKeptSub(m1, mem, entries1 - image, owned);
        PagesKeptTrans(old(mem), m1, mem, owned);
        if r != 0 {
          failed := true;
          break;
        }
        MapIs(v1, p, View());
        Allocated(free1, tables1, entries1, Frames(stack), tables, entries, p);
        GrowPage(entries0, entries1, entries, c, p, free1[|free1| - 1]);
        TablesStep(tables0, tables1, tables, c, p, n);
        page := page + 4096;
      }
      if !failed {
        CanGrowStep(|Frames(stack)|, tables.Keys, large, entries0.Keys, page / 4096, n);
        MapStep(View(), page / 4096, n);
      }
    }

    lemma FreeFrames()
      requires Valid()
      ensures forall i :: 0 <= i < |Frames(stack)| ==> IsFrame(Frames(stack)[i])
    {
    }

    /** Number of the heap's last page. */
    function LastPage(): int
      reads `heapAddr, `heapSize
    {
      (heapAddr + heapSize - 1) / 4096
    }

    /** The heap's pages are mapped, and none of them is the boot code's. */
    ghost predicate HeapOK()
      reads this
    {
      && Valid() && heapAddr % 4096 == 0 && heapAddr > HEAP_LOWEST
      && INITIAL_HEAP <= heapSize && heapAddr + heapSize < HEAP_LIMIT
      && Pages(heapAddr / 4096 - 1, LastPage()) <= entries.Keys - image
    }

    lemma HeapIs()
      ensures HeapOK() <==> && Valid() && heapAddr % 4096 == 0 && heapAddr > 0x8000_0000 && INITIAL_HEAP <= heapSize
                            && heapAddr + heapSize < HEAP_LIMIT
                            && Pages(heapAddr / 4096 - 1, LastPage()) <= entries.Keys - image
      ensures LastPage() == (heapAddr + heapSize - 1) / 4096
      ensures HEAP_LIMIT == STACK_BOTTOM < 0x1_0000_0000 && INITIAL_HEAP > 0 && HEAP_LIMIT + 0x8000_0000 > 0
      ensures HeapOK() ==> image !! Pages(heapAddr / 4096 - 1, LastPage()) && heapAddr / 4096 - 1 <= LastPage()
    {
    }

    /** Each page of the heap has a frame of its own. */
    lemma HeapFits()
      requires HeapOK()
      ensures LastPage() - (heapAddr / 4096 - 1) <= |Account()|
    {
      hide *;
      HeapIs();
      ValidIs();
      AccountIs();
      var owned := entries - image;
      HoldingsCount(pd, tables, owned, Frames(stack));
      PagesCount(heapAddr / 4096 - 1, LastPage());
      SubsetCount(Pages(heapAddr / 4096 - 1, LastPage()), owned.Keys);
      assert owned.Keys == entries.Keys - image;
      assert |owned.Keys| == |owned|;
    }

    ghost function View(): PagerView
      reads this
    {
      PagerView(pd, heapAddr, heapSize, Frames(stack), tables, large, entries, image)
    }

    lemma ViewIs()
      ensures View() == PagerView(pd, heapAddr, heapSize, Frames(stack), tables, large, entries, image)
      ensures View().LastPage() == LastPage() == (heapAddr + heapSize - 1) / 4096
    {
    }

    lemma SoundView()
      ensures View().Account() == Account() && (HeapOK() ==> View().Sound())
    {
      hide TablesStored, Distinct, EntriesOK, StackShape, Frames, Holdings, Pages;
    }

    ghost predicate HeapCanGrow(amount: nat)
      reads this
    {
      View().CanGrowBy(amount)
    }

    /** The boot pages below the heap that go when it is made smaller by amount, which is more than it has, are Givable. */
    ghost predicate CanOvershoot(amount: nat)
      reads this
    {
      heapSize < amount <= heapAddr + heapSize ==>
        Givable(pd, tables, entries, image, Frames(stack), Pages((heapAddr + heapSize - amount - 1) / 4096, heapAddr / 4096 - 1))
    }

    lemma OvershootIs(amount: nat)
      ensures CanOvershoot(amount) <==>
                (heapSize < amount <= heapAddr + heapSize ==>
                   Givable(pd, tables, entries, image, Frames(stack), Pages((heapAddr + heapSize - amount - 1) / 4096, heapAddr / 4096 - 1)))
    {
    }

    /** The pages above newPage go.  When that is below the heap, boot pages among them are given away. */
    method DropPages(amount: nat, currentPage: nat, newPage: nat)
      requires HeapOK() && 0 < amount < heapAddr + heapSize && CanOvershoot(amount)
      requires currentPage % 4096 == 0 && newPage % 4096 == 0 && currentPage < STACK_BOTTOM
      requires currentPage / 4096 == LastPage() && newPage / 4096 == (heapAddr + heapSize - amount - 1) / 4096
      modifies `mem, `sp, `stack, `entries, `image
      ensures Valid() && PagesKept(old(mem), mem, entries - image)
      ensures heapSize >= amount ==> Account() == old(Account()) && image == old(image)
      ensures heapSize >= amount ==> Pages(heapAddr / 4096 - 1, newPage / 4096) <= entries.Keys - image
      ensures entries == old(entries) - Pages(newPage / 4096, currentPage / 4096)
      ensures heapSize < amount ==>
                var pages := Pages(newPage / 4096, heapAddr / 4096 - 1);
                image == old(image) - pages && Account() == old(Account()) + Given(old(entries), old(image), pages)
      ensures View() == old(View()).FreePages(currentPage / 4096, newPage / 4096)
    {
      hide *;
      HeapIs();
      OvershootIs(amount);
      ghost var start, last, account := heapAddr / 4096 - 1, currentPage / 4096, Account();
      if heapSize < amount {
        PagesSplit(newPage / 4096, start, last);
        GivableMore(pd, tables, entries, image, Frames(stack), Pages(newPage / 4096, start), Pages(start, last));
      } else {
        PagesSplit(start, newPage / 4096, last);
        NoneGiven(entries, image, Pages(newPage / 4096, last));
      }
      FreePages(currentPage, newPage);
      assert account + {} == account;
      if heapSize >= amount {
        PagesStay(old(entries), entries, image, Pages(start, newPage / 4096), Pages(newPage / 4096, last));
      }
    }

    /** The part of heap_callback that takes pages away from the heap's end.  An amount larger than the heap is not
        noticed: the pages before the heap go too, and its size wraps around. */
    method ShrinkHeap(amount: nat) returns (r: int)
      requires HeapOK() && 0 < amount <= 0x8000_0000 && CanOvershoot(amount)
      modifies `mem, `sp, `stack, `entries, `heapSize, `image
      ensures Valid() && PagesKept(old(mem), mem, entries - image)
      ensures r == if old(heapSize) < amount || old(heapSize) - amount >= INITIAL_HEAP then 0 else -1
      ensures old(heapSize) >= amount ==> HeapOK() && Account() == old(Account()) && image == old(image)
      ensures r == 0 ==> heapSize == Wrap(old(heapSize) - amount)
      ensures r == 0 ==> old(heapAddr + heapSize) - amount > 0 &&
                         entries == old(entries) - Pages((old(heapAddr + heapSize) - amount - 1) / 4096, old(LastPage()))
      ensures old(heapSize) < amount ==>
                var pages := Pages((old(heapAddr + heapSize) - amount - 1) / 4096, old(heapAddr) / 4096 - 1);
                image == old(image) - pages && Account() == old(Account()) + Given(old(entries), old(image), pages)
      ensures r == -1 ==> heapSize == old(heapSize) && entries == old(entries)
      ensures View() == old(View()).Moved(0 - amount)
    {
      hide *;
      HeapIs();
      ViewIs();
      MovedIs(View(), 0 - amount);
      OvershootIs(amount);
      PagesSame(mem, entries - image);
      var currentEnd := heapAddr + heapSize;
      var currentPage := PageFloor(currentEnd - 1);
      FloorIs(currentEnd - 1);
      ShrinkExact(heapSize, currentEnd, amount);
      ShrinkAllowedIs(heapSize, currentEnd, amount);
      WrapIs(heapSize - amount);
      if amount > currentEnd {
        return -1;
      }
      if Wrap(heapSize - amount) < INITIAL_HEAP {
        return -1;
      }
      var newEnd := currentEnd - amount;
      var newPage := PageFloor(newEnd - 1);
      FloorIs(newEnd - 1);
      DropPages(amount, currentPage, newPage);
      ViewIs();
      heapSize := Wrap(heapSize - amount);
      HeapIs();
      ViewIs();
      r := 0;
    }

    /** The part of heap_callback that frees the pages again that it has mapped. */
    method TakeBack(first: nat, last: nat, ghost entries0: map<int, int>)
      requires Valid() && first % 4096 == 0 && last % 4096 == 0 && last <= first < STACK_BOTTOM
      requires Grown(entries0, entries, last / 4096, first / 4096) && image <= entries0.Keys
      modifies `mem, `sp, `stack, `entries, `image
      ensures Valid() && entries == entries0 && image == old(image) && Account() == old(Account())
      ensures PagesKept(old(mem), mem, entries - image)
      ensures View() == old(View()).FreePages(first / 4096, last / 4096)
    {
      hide *;
      GrownBack(entries0, entries, last / 4096, first / 4096, image);
      NoneGiven(entries, image, Pages(last / 4096, first / 4096));
      FreePages(first, last);
    }

    /** The part of heap_callback that adds pages at the heap's end, and takes them back when one can not be added. */
    method AddPages(currentPage: nat, newPage: nat) returns (failed: bool)
      requires HeapOK() && currentPage % 4096 == 0 && newPage % 4096 == 0 && currentPage / 4096 == LastPage()
      requires currentPage <= newPage < STACK_BOTTOM
      modifies `mem, `sp, `stack, `tables, `entries, `image
      ensures Valid() && Account() == old(Account()) && image == old(image) && PagesKept(old(mem), mem, old(entries) - image)
      ensures failed <==> !CanGrow(|Frames(old(stack))|, old(tables).Keys, large, old(entries).Keys,
                                   currentPage / 4096 + 1, newPage / 4096)
      ensures !failed ==> Grown(old(entries), entries, currentPage / 4096, newPage / 4096)
      ensures !failed ==> Pages(heapAddr / 4096 - 1, newPage / 4096) <= entries.Keys - image
      ensures failed ==> entries == old(entries)
      ensures TablesGrown(old(tables), tables, currentPage / 4096, newPage / 4096)
      ensures var refused := old(View()).FirstRefused(currentPage / 4096 + 1, newPage / 4096);
              var v := old(View()).MapPages(currentPage / 4096 + 1, newPage / 4096);
              && (failed <==> refused <= newPage / 4096)
              && View() == if failed then v.FreePages(refused - 1, currentPage / 4096) else v
    {
      hide *;
      HeapIs();
      ImageMapped();
      var page;
      failed, page := GrowPages(currentPage, newPage);
      GrownBack(old(entries), entries, currentPage / 4096, page / 4096 - 1, image);
      if failed {
        ghost var m1 := mem;
        TakeBack(page - 4096, currentPage, old(entries));
        PagesKeptTrans(old(mem), m1, mem, entries - image);
      } else {
        PagesSplit(heapAddr / 4096 - 1, currentPage / 4096, newPage / 4096);
        PagesJoin(old(entries), entries, image, Pages(heapAddr / 4096 - 1, currentPage / 4096), Pages(currentPage / 4096, newPage / 4096));
      }
    }

    /** The part of heap_callback that makes the heap larger. */
    method GrowHeap(amount: nat) returns (r: int)
      requires HeapOK() && 0 < amount < 0x8000_0000
      modifies `mem, `sp, `stack, `tables, `entries, `heapSize, `image
      ensures HeapOK() && Account() == old(Account()) && r == if old(HeapCanGrow(amount)) then 0 else -1
      ensures image == old(image)
      ensures PagesKept(old(mem), mem, old(entries) - image)
      ensures r == 0 ==> heapSize == old(heapSize) + amount && Grown(old(entries), entries, old(LastPage()), LastPage())
      ensures r == -1 ==> heapSize == old(heapSize) && entries == old(entries)
      ensures TablesGrown(old(tables), tables, old(LastPage()), (old(heapAddr + heapSize) + amount - 1) / 4096)
      ensures View() == old(View()).Moved(amount)
    {
      hide *;
      HeapIs();
      ViewIs();
      MovedIs(View(), amount);
      PagesSame(mem, entries - image);
      CanGrowIs(amount);
      var currentEnd := heapAddr + heapSize;
      var currentPage := PageFloor(currentEnd - 1);
      FloorIs(currentEnd - 1);
      GrowExact(currentEnd, amount);
      GrowAllowedIs(currentEnd, amount);
      NothingGrown(entries, tables, LastPage(), (currentEnd + amount - 1) / 4096);
      if Wrap(currentEnd + amount) >= HEAP_LIMIT {
        return -1;
      }
      if Wrap(currentEnd + amount) < currentEnd {
        return -1;
      }
      var newEnd := currentEnd + amount;
      var newPage := PageFloor(newEnd - 1);
      FloorIs(newEnd - 1);
      var failed := AddPages(currentPage, newPage);
      HeapIs();
      ViewIs();
      if failed {
        return -1;
      }
      heapSize := heapSize + amount;
      HeapIs();
      ViewIs();
      r := 0;
    }

    /** heap_callback: the heap grows or shrinks by whole pages, as far as the new end needs; when it can not, what
        was mapped is given back and nothing but page tables stays.  The check lets amounts larger than the heap through
        (ShrinkExact): then the pages before the heap are unmapped, boot pages among them are given away as if their
        frames were free, and the heap's size wraps around. */
    method HeapCallback(difference: int) returns (r: int)
      requires HeapOK() && -0x8000_0000 <= difference < 0x8000_0000
      requires difference < 0 ==> CanOvershoot(-difference)
      modifies `mem, `sp, `stack, `tables, `entries, `heapSize, `image
      ensures Valid() && (r == 0 || r == -1)
      ensures PagesKept(old(mem), mem, if difference < 0 then entries - image else old(entries) - image)
      ensures -difference <= old(heapSize) ==> HeapOK() && Account() == old(Account()) && image == old(image)
      ensures difference == 0 ==> r == 0
      ensures difference < 0 ==> (r == 0 <==> -difference > old(heapSize) || old(heapSize) + difference >= INITIAL_HEAP)
      ensures difference > 0 ==> (r == 0 <==> old(HeapCanGrow(difference)))
      ensures r == 0 ==> heapSize == old(heapSize) + difference + if -difference > old(heapSize) then 0x1_0000_0000 else 0
      ensures r == -1 ==> heapSize == old(heapSize) && entries == old(entries)
      ensures r == 0 && difference <= 0 ==>
                entries == old(entries) - Pages((old(heapAddr + heapSize) + difference - 1) / 4096, old(LastPage()))
      ensures r == 0 && difference > 0 ==> Grown(old(entries), entries, old(LastPage()), LastPage())
      ensures difference <= 0 ==> tables == old(tables)
      ensures difference > 0 ==> TablesGrown(old(tables), tables, old(LastPage()),
                                             (old(heapAddr + heapSize) + difference - 1) / 4096)
      ensures -difference > old(heapSize) ==>
                var pages := Pages((old(heapAddr + heapSize) + difference - 1) / 4096, old(heapAddr) / 4096 - 1);
                image == old(image) - pages && Account() == old(Account()) + Given(old(entries), old(image), pages)
      ensures View() == old(View()).Moved(difference)
    {
      hide *;
      HeapIs();
      ViewIs();
      MovedIs(View(), difference);
      if difference == 0 {
        PagesSame(mem, entries - image);
        PagesNone(LastPage());
        assert entries - {} == entries;
        return 0;
      }
      if difference < 0 {
        WrapIs(heapSize - -difference);
        r := ShrinkHeap(-difference);
      } else {
        r := GrowHeap(difference);
        HeapIs();
      }
    }

    // ----- the words on the pages

    lemma PlaceIs(v: nat)
      requires Valid() && v < STACK_BOTTOM && v / 4096 in entries
      ensures Physical(v) == PlaceIn(entries, v) && FrameOf(entries[v / 4096]) <= Physical(v) < FrameOf(entries[v / 4096]) + PAGE
      ensures v / 4096 !in image ==> v / 4096 in entries - image && (entries - image)[v / 4096] == entries[v / 4096]
    {
      hide *;
      AddressFacts(v);
      PhysicalIs(v);
      PlaceInIs(entries, v);
    }

    /** A word is stored on a page with a frame of its own. */
    lemma WordStored(v: nat, w: int)
      requires Valid() && v < STACK_BOTTOM && v / 4096 in entries && v / 4096 !in image
      ensures TablesStored(mem[Physical(v) := w], pd, tables, large, entries, stack)
    {
      hide *;
      ValidIs();
      PlaceIs(v);
      MappedApart(pd, tables, entries - image, Frames(stack));
      ShapeFits(stack);
      WriteOwned(mem, pd, tables, large, entries, stack, FrameOf(entries[v / 4096]), Physical(v), w);
    }

    /** The words at the addresses from lo to hi are stored, through the page tables. */
    method PutWords(words: map<int, int>, lo: nat, hi: nat)
      requires Valid() && hi <= STACK_BOTTOM && OwnPages(entries, image, lo, hi) && forall v :: lo <= v < hi ==> v in words
      modifies `mem
      ensures Valid() && Holding(mem, entries, words, lo, hi) && View() == old(View())
    {
      hide *;
      ViewIs();
      HoldingNone(mem, entries, words, lo);
      var v := lo;
      while v < hi
        invariant v == lo || lo <= v <= hi
        invariant Valid() && Holding(mem, entries, words, lo, v)
      {
        OwnPage(entries, image, lo, hi, v);
        PlaceIs(v);
        WordStored(v, words[v]);
        ValidIs();
        HoldingOne(mem, pd, tables, entries, image, Frames(stack), words, lo, v, hi);
        mem := mem[Physical(v) := words[v]];
        ValidIs();
        v := v + 1;
      }
      if hi < lo {
        HoldingEmpty(mem, entries, words, lo, hi);
      }
      ViewIs();
    }

    /** The words at these addresses. */
    function Words(lo: nat, hi: nat): map<int, int>
      reads `mem, `pd
    {
      map v: nat | lo <= v < hi :: Load(mem, Physical(v))
    }

    lemma WordsHold(lo: nat, hi: nat)
      requires Valid() && hi <= STACK_BOTTOM && OwnPages(entries, image, lo, hi)
      ensures Holding(mem, entries, Words(lo, hi), lo, hi)
    {
      hide *;
      forall v | lo <= v < hi
        ensures HoldsAt(mem, entries, Words(lo, hi), v)
      {
        OwnPage(entries, image, lo, hi, v);
        PlaceIs(v);
        WordIs(lo, hi, v);
        FoldHoldsAt(mem, entries, Words(lo, hi), v);
      }
      FoldHolding(mem, entries, Words(lo, hi), lo, hi);
    }

    lemma WordIs(lo: nat, hi: nat, v: nat)
      requires lo <= v < hi
      ensures v in Words(lo, hi) && Words(lo, hi)[v] == Load(mem, Physical(v))
    {
    }

    /** The heap's addresses are on its pages. */
    lemma OwnHeap()
      requires HeapOK()
      ensures OwnPages(entries, image, heapAddr, heapAddr + heapSize) && heapSize >= 4
    {
      hide *;
      HeapIs();
      HeapPagesOwn(entries, image, heapAddr, heapSize);
    }

    lemma CanGrowByIs(amount: int)
      ensures amount > 0 ==> (HeapCanGrow(amount) <==> View().CanGrowBy(amount))
    {
    }

    lemma CanGrowIs(amount: nat)
      ensures HeapCanGrow(amount) <==>
                && heapAddr + heapSize + amount < HEAP_LIMIT
                && CanGrow(|Frames(stack)|, tables.Keys, large, entries.Keys, LastPage() + 1,
                           (heapAddr + heapSize + amount - 1) / 4096)
    {
    }

    lemma PhysicalIs(v: nat)
      ensures Physical(v) == FrameOf(Load(mem, EntryAddress(v))) + v % 4096
      ensures EntryAddress(v) == FrameOf(Load(mem, pd + 4 * (v / 0x40_0000))) + 4 * (v / 4096 % 1024)
    {
    }
  }

  /** Where the word of an address is by the entries. */
  function PlaceIn(entries: map<int, int>, v: int): int
    requires v / 4096 in entries
  {
    FrameOf(entries[v / 4096]) + v % 4096
  }

  lemma PlaceInIs(entries: map<int, int>, v: int)
    requires v / 4096 in entries
    ensures PlaceIn(entries, v) == FrameOf(entries[v / 4096]) + v % 4096 && 0 <= v % 4096 < PAGE
  {
  }

  /** The pages of these addresses are mapped, each to a frame of its own. */
  ghost predicate OwnPages(entries: map<int, int>, image: set<int>, lo: int, hi: int) {
    forall v :: lo <= v < hi ==> v / 4096 in entries && v / 4096 !in image
  }

  lemma OwnPage(entries: map<int, int>, image: set<int>, lo: int, hi: int, v: int)
    requires OwnPages(entries, image, lo, hi) && lo <= v < hi
    ensures v / 4096 in entries && v / 4096 !in image
  {
  }

  /** Memory holds these words at the addresses from lo to hi. */
  ghost predicate Holding(m: PhysMem, entries: map<int, int>, words: map<int, int>, lo: int, hi: int) {
    forall v :: lo <= v < hi ==> HoldsAt(m, entries, words, v)
  }

  ghost predicate HoldsAt(m: PhysMem, entries: map<int, int>, words: map<int, int>, v: int) {
    v / 4096 in entries && v in words && Load(m, PlaceIn(entries, v)) == words[v]
  }

  lemma FoldHoldsAt(m: PhysMem, entries: map<int, int>, words: map<int, int>, v: int)
    requires v / 4096 in entries && v in words && Load(m, PlaceIn(entries, v)) == words[v]
    ensures HoldsAt(m, entries, words, v)
  {
  }

  lemma FoldHolding(m: PhysMem, entries: map<int, int>, words: map<int, int>, lo: int, hi: int)
    requires forall v :: lo <= v < hi ==> HoldsAt(m, entries, words, v)
    ensures Holding(m, entries, words, lo, hi)
  {
  }

  lemma HeapPagesOwn(entries: map<int, int>, image: set<int>, start: nat, size: nat)
    requires start % 4096 == 0 && INITIAL_HEAP <= size && Pages(start / 4096 - 1, (start + size - 1) / 4096) <= entries.Keys - image
    ensures OwnPages(entries, image, start, start + size) && size >= 4
  {
    forall v | start <= v < start + size
      ensures v / 4096 in entries && v / 4096 !in image
    {
      assert v / 4096 in Pages(start / 4096 - 1, (start + size - 1) / 4096);
    }
  }

  lemma HoldingNone(m: PhysMem, entries: map<int, int>, words: map<int, int>, lo: int)
    ensures Holding(m, entries, words, lo, lo)
  {
  }

  lemma HoldingEmpty(m: PhysMem, entries: map<int, int>, words: map<int, int>, lo: int, hi: int)
    requires hi < lo
    ensures Holding(m, entries, words, lo, hi)
  {
  }

  /** One word more; it has a place of its own. */
  lemma HoldingOne(m: PhysMem, pd: int, tables: map<int, int>, entries: map<int, int>, image: set<int>, free: seq<int>,
                   words: map<int, int>, lo: int, v: int, hi: int)
    requires Holding(m, entries, words, lo, v) && Distinct(pd, tables, entries - image, free)
    requires OwnPages(entries, image, lo, hi) && lo <= v < hi && v in words
    ensures v / 4096 in entries && Holding(m[PlaceIn(entries, v) := words[v]], entries, words, lo, v + 1)
  {
    var m' := m[PlaceIn(entries, v) := words[v]];
    hide HoldsAt;
    forall u | lo <= u < v + 1
      ensures HoldsAt(m', entries, words, u)
    {
      if u < v {
        assert HoldsAt(m, entries, words, u);
        PlacesDiffer(pd, tables, entries, image, free, u, v);
        HoldsStill(m, entries, words, u, PlaceIn(entries, v), words[v]);
      } else {
        HoldsNow(m, entries, words, v);
      }
    }
  }

  lemma HoldsStill(m: PhysMem, entries: map<int, int>, words: map<int, int>, u: int, y: int, w: int)
    requires HoldsAt(m, entries, words, u) && PlaceIn(entries, u) != y
    ensures HoldsAt(m[y := w], entries, words, u)
  {
    hide PlaceIn;
  }

  lemma HoldsNow(m: PhysMem, entries: map<int, int>, words: map<int, int>, v: int)
    requires v / 4096 in entries && v in words
    ensures HoldsAt(m[PlaceIn(entries, v) := words[v]], entries, words, v)
  {
    hide PlaceIn;
  }

  lemma PlacesDiffer(pd: int, tables: map<int, int>, entries: map<int, int>, image: set<int>, free: seq<int>, u: int, v: int)
    requires Distinct(pd, tables, entries - image, free) && u != v
    requires u / 4096 in entries && u / 4096 !in image && v / 4096 in entries && v / 4096 !in image
    ensures PlaceIn(entries, u) != PlaceIn(entries, v)
  {
    var owned := entries - image;
    assert u / 4096 in owned && v / 4096 in owned && owned[u / 4096] == entries[u / 4096] && owned[v / 4096] == entries[v / 4096];
    FrameOffsets(FrameOf(entries[u / 4096]), FrameOf(entries[v / 4096]), u, v);
    hide FrameOf, IsFrame, FramesDiffer;
  }

  lemma FrameOffsets(f: int, g: int, u: int, v: int)
    requires u != v
    ensures f == g && u / 4096 == v / 4096 ==> f + u % 4096 != g + v % 4096
    ensures IsFrame(f) && IsFrame(g) && f != g ==> f + u % 4096 != g + v % 4096
  {
    if IsFrame(f) && IsFrame(g) && f != g {
      FramesApart(f, g, g + v % 4096);
    }
  }

  /** A word in a frame that is neither free nor a table's. */
  lemma WriteOwned(m: PhysMem, pd: int, tables: map<int, int>, large: set<int>, entries: map<int, int>, stack: seq<StackPage>,
                   g: int, y: int, w: int)
    requires TablesStored(m, pd, tables, large, entries, stack) && FramesDiffer(pd, tables, Frames(stack)) && PagesFit(stack)
    requires IsFrame(g) && g <= y < g + PAGE && g != pd && g !in Frames(stack) && forall t :: t in tables ==> tables[t] != g
    ensures TablesStored(m[y := w], pd, tables, large, entries, stack)
  {
    var m' := m[y := w];
    StackUntouched(m, pd, tables, large, entries, stack, g, y, w);
    StoreElsewhere(m, g, y, w, pd);
    DirectoryFrame(m, m', pd, tables, large);
    hide IsFrame, Frames, StackTableOK, StackPageOK, DirectoryOK, TableOK;
    forall t | t in tables && t != STACK_TABLE
      ensures TableOK(m', t, tables[t], entries)
    {
      StoreElsewhere(m, g, y, w, tables[t]);
      TableFrame(m, m', t, tables[t], entries);
    }
  }

  /** The words on pages that stay. */
  lemma HoldingKept(m: PhysMem, m': PhysMem, entries: map<int, int>, entries': map<int, int>, kept: map<int, int>,
                    words: map<int, int>, lo: int, hi: int, hi': int)
    requires Holding(m, entries, words, lo, hi) && PagesKept(m, m', kept)
    requires forall v :: lo <= v < hi' ==> v / 4096 in kept && v / 4096 in entries'
    requires forall p :: p in kept && p in entries && p in entries' ==> kept[p] == entries[p] == entries'[p]
    ensures Holding(m', entries', words, lo, if hi < hi' then hi else hi')
  {
    hide HoldsAt;
    forall v | lo <= v < hi && v < hi'
      ensures HoldsAt(m', entries', words, v)
    {
      assert HoldsAt(m, entries, words, v);
      assert v / 4096 in kept && v / 4096 in entries';
      HoldsOnPage(m, m', entries, entries', kept, words, v);
    }
  }

  lemma HoldsOnPage(m: PhysMem, m': PhysMem, entries: map<int, int>, entries': map<int, int>, kept: map<int, int>,
                    words: map<int, int>, v: int)
    requires HoldsAt(m, entries, words, v) && PagesKept(m, m', kept) && v / 4096 in kept && v / 4096 in entries'
    requires v / 4096 in entries ==> kept[v / 4096] == entries[v / 4096] == entries'[v / 4096]
    ensures HoldsAt(m', entries', words, v)
  {
    PlaceInIs(entries, v);
    PlaceInIs(entries', v);
    assert SameFrame(m, m', FrameOf(kept[v / 4096]));
    hide FrameOf, PlaceIn;
  }

  /** The entries that own their frames, said in two ways. */
  lemma OwnedOnly(entries: map<int, int>, image: set<int>, frame: int)
    ensures (forall v :: v in entries && v !in image ==> FrameOf(entries[v]) != frame) <==>
            forall v :: v in entries - image ==> FrameOf((entries - image)[v]) != frame
  {
    hide FrameOf;
    var owned := entries - image;
    forall v | v in entries && v !in image
      ensures v in owned && owned[v] == entries[v]
    {
    }
  }

  lemma FramesEmpty(stack: seq<StackPage>)
    ensures Frames(stack) == [] <==> stack == []
  {
  }

  lemma NoEntry()
    ensures FrameOf(0) + 0 % 4096 == 0 && !Present(0)
  {
  }

  lemma EntryCleared(m: PhysMem, frame: int, stack: seq<StackPage>)
    requires StackTableOK(m, frame, stack) && stack != [] && |stack| <= ENTRIES
    ensures StackTableOK(m[StackEntry(frame, |stack| - 1) := 0], frame, stack[..|stack| - 1])
  {
  }

  lemma OnlyOld(stack: seq<StackPage>)
    requires stack != []
    ensures var stack' := stack[..|stack| - 1];
            forall j :: 0 <= j < |stack'| ==> (j < |stack| && stack'[j] == stack[j]) || stack'[j].words == []
  {
  }

  lemma PoppedPage(stack: seq<StackPage>)
    requires StackShape(stack) && stack != [] && stack[|stack| - 1].words == []
    ensures StackShape(stack[..|stack| - 1]) && PointerOf(stack[..|stack| - 1]) == PointerOf(stack)
    ensures Frames(stack[..|stack| - 1]) + [stack[|stack| - 1].frame] + [] ==
            Frames(stack[..|stack| - 1]) + [stack[|stack| - 1].frame]
  {
  }

  lemma LastWordStored(m: PhysMem, pd: int, tables: map<int, int>, large: set<int>, entries: map<int, int>, stack: seq<StackPage>)
    requires TablesStored(m, pd, tables, large, entries, stack) && stack != [] && stack[|stack| - 1].words != []
    ensures var last := stack[|stack| - 1];
            Load(m, SlotOf(last.frame, |last.words| - 1)) == last.words[|last.words| - 1]
    ensures TablesStored(m, pd, tables, large, entries, Unnoted(stack))
  {
    assert StackPageOK(m, stack[|stack| - 1]);
    var stack' := Unnoted(stack);
    hide DirectoryOK, TableOK;
    forall j | 0 <= j < |stack'|
      ensures StackPageOK(m, stack'[j])
    {
      assert StackPageOK(m, stack[j]);
    }
  }

  lemma UnnotedShape(stack: seq<StackPage>)
    requires StackShape(stack) && stack != [] && stack[|stack| - 1].words != []
    ensures StackShape(Unnoted(stack)) && PointerOf(Unnoted(stack)) == PointerOf(stack) + 4
  {
  }

  lemma FreeWith(pd: int, tables: map<int, int>, entries: map<int, int>, stack: seq<StackPage>, frame: int)
    requires Distinct(pd, tables, entries, Frames(stack)) && IsFrame(frame) && frame != pd && frame !in Frames(stack)
    requires frame !in tables.Values && forall v :: v in entries ==> FrameOf(entries[v]) != frame
    ensures Distinct(pd, tables, entries, Frames(stack) + [frame]) && IsFrame(pd)
  {
    UnownedIs(frame, pd, tables, entries, Frames(stack));
  }

  lemma NewDirectory(m: PhysMem, pd: int, tables: map<int, int>, large: set<int>, t: int)
    requires DirectoryOK(m, pd, tables, large) && t in tables && 0 <= t < STACK_TABLE
    ensures FrameOf(Load(m, pd + 4 * t)) == tables[t]
  {
  }

  lemma SameOnly(m: PhysMem, g: int)
    ensures OnlyFrame(m, m, g)
  {
  }

  lemma DirectoryApart(pd: int, table: int, v: nat)
    requires v < STACK_BOTTOM
    ensures pd <= pd + 4 * (v / 0x40_0000) < pd + PAGE && ENTRIES > 0
  {
    PageNumber(v);
  }

  /** The directory is not part of the table. */
  lemma WordKept(m: PhysMem, pd: int, table: int, i: nat, v: nat)
    requires IsFrame(pd) && IsFrame(table) && pd != table && i < ENTRIES && v < STACK_BOTTOM
    ensures Load(m[table + 4 * i := 0], pd + 4 * (v / 0x40_0000)) == Load(m, pd + 4 * (v / 0x40_0000))
  {
    PageNumber(v);
    FramesApart(table, pd, pd + 4 * (v / 0x40_0000));
  }

  /** Clearing one more word of the table. */
  lemma ClearOne(m: PhysMem, m1: PhysMem, table: int, i: nat)
    requires OnlyFrame(m, m1, table) && i < ENTRIES && IsFrame(table)
    requires forall k :: 0 <= k < i ==> Load(m1, table + 4 * k) == 0
    ensures OnlyFrame(m, m1[table + 4 * i := 0], table)
    ensures forall k :: 0 <= k < i + 1 ==> Load(m1[table + 4 * i := 0], table + 4 * k) == 0
  {
    forall f | IsFrame(f) && f != table
      ensures SameFrame(m, m1[table + 4 * i := 0], f)
    {
      StoreElsewhere(m1, table, table + 4 * i, 0, f);
      assert SameFrame(m, m1, f);
    }
  }

  lemma NewTable(pd: int, tables: map<int, int>, large: set<int>, entries: map<int, int>, owned: map<int, int>,
                 stack: seq<StackPage>, t: int, table: int)
    requires Distinct(pd, tables, owned, Frames(stack) + [table]) && EntriesOK(tables, large, entries)
    requires 0 <= t < STACK_TABLE && t !in tables && t !in large
    ensures Distinct(pd, tables[t := table], owned, Frames(stack)) && EntriesOK(tables[t := table], large, entries)
    ensures FramesDiffer(pd, tables, Frames(stack) + [table])
  {
    OwnedNot(table, pd, tables, owned, Frames(stack));
    assert forall u :: u in tables ==> tables[u] != table;
    hide Frames, IsFrame, FrameOf;
  }

  /** The frame of a boot page is nobody's. */
  ghost predicate NotOwned(frame: int, pd: int, tables: map<int, int>, entries: map<int, int>, image: set<int>, free: seq<int>) {
    && IsFrame(frame) && frame != pd && frame !in free && frame !in tables.Values
    && forall v :: v in entries && v !in image ==> FrameOf(entries[v]) != frame
  }

  /** No page directory or page table is in the boot pages among these, and each has a frame of its own. */
  ghost predicate Givable(pd: int, tables: map<int, int>, entries: map<int, int>, image: set<int>, free: seq<int>, pages: set<int>) {
    && (forall v :: v in pages && v in image && v in entries ==> NotOwned(FrameOf(entries[v]), pd, tables, entries, image, free))
    && (forall v, w :: v in pages && w in pages && v in image && w in image && v in entries && w in entries && v != w ==>
          FrameOf(entries[v]) != FrameOf(entries[w]))
  }

  /** The frames of the boot pages among these. */
  ghost function Given(entries: map<int, int>, image: set<int>, pages: set<int>): set<int> {
    set v | v in pages && v in image && v in entries :: FrameOf(entries[v])
  }

  lemma NoneGiven(entries: map<int, int>, image: set<int>, pages: set<int>)
    requires pages !! image
    ensures Given(entries, image, pages) == {} && image - pages == image
    ensures entries - {} == entries && image - {} == image
    ensures forall pd, tables, free :: Givable(pd, tables, entries, image, free, pages)
  {
  }

  lemma GivableMore(pd: int, tables: map<int, int>, entries: map<int, int>, image: set<int>, free: seq<int>,
                    pages: set<int>, own: set<int>)
    requires Givable(pd, tables, entries, image, free, pages) && own !! image
    ensures Givable(pd, tables, entries, image, free, pages + own)
    ensures Given(entries, image, pages + own) == Given(entries, image, pages) && image - (pages + own) == image - pages
  {
    hide NotOwned, FrameOf;
  }

  lemma GivableOne(pd: int, tables: map<int, int>, entries: map<int, int>, image: set<int>, free: seq<int>, pages: set<int>, p: int)
    requires Givable(pd, tables, entries, image, free, pages) && p in pages
    ensures p in image && p in entries ==> NotOwned(FrameOf(entries[p]), pd, tables, entries, image, free)
  {
  }

  lemma FreedOne(entries: map<int, int>, image: set<int>, entries': map<int, int>, image': set<int>, p: int, freed: bool)
    requires image <= entries.Keys && (if freed then entries' == entries - {p} && image' == image - {p}
                                       else entries' == entries && image' == image && p !in entries)
    ensures entries' == entries - {p} && image' == image - {p}
    ensures forall v :: v in entries' - image' ==> v in entries - image && (entries - image)[v] == (entries' - image')[v]
  {
  }

  lemma GivableNext(pd: int, tables: map<int, int>, entries: map<int, int>, image: set<int>, free: seq<int>,
                    entries': map<int, int>, image': set<int>, free': seq<int>, pages: set<int>, p: int, freed: bool)
    requires Givable(pd, tables, entries, image, free, pages + {p}) && p !in pages
    requires entries' == entries - {p} && image' == image - {p} && (freed ==> p in entries)
    requires free' == if freed then free + [FrameOf(entries[p])] else free
    ensures Givable(pd, tables, entries', image', free', pages)
  {
    hide IsFrame, FrameOf;
    forall v | v in pages && v in image' && v in entries'
      ensures NotOwned(FrameOf(entries'[v]), pd, tables, entries', image', free')
    {
      assert v in pages + {p} && v in image && entries'[v] == entries[v];
      assert freed ==> FrameOf(entries[v]) != FrameOf(entries[p]);
      assert forall u :: u in entries' && u !in image' ==> u in entries && u !in image;
    }
  }

  lemma GivenNext(entries: map<int, int>, image: set<int>, pages: set<int>, p: int, account: set<int>, freed: bool)
    requires p !in pages && image <= entries.Keys && (freed <==> p in entries)
    ensures account + Given(entries, image, pages + {p}) ==
            account + Given(entries, image, pages) + if freed && p in image then {FrameOf(entries[p])} else {}
  {
    hide FrameOf;
    assert Given(entries, image, pages + {p}) ==
           Given(entries, image, pages) + if freed && p in image then {FrameOf(entries[p])} else {};
  }

  lemma GrownOwned(entries: map<int, int>, entries': map<int, int>, image: set<int>, lo: int, hi: int)
    requires Grown(entries, entries', lo, hi)
    ensures forall v :: v in entries - image ==> v in entries' - image && (entries' - image)[v] == (entries - image)[v]
  {
  }

  lemma SlotIn(frame: int, i: nat)
    requires i < WORDS
    ensures frame <= SlotOf(frame, i) < frame + PAGE
  {
  }

  lemma TableEntryIn(frame: int, i: nat)
    requires i < 1024
    ensures frame <= frame + 4 * i < frame + PAGE
  {
  }

  lemma PagesStay(entries: map<int, int>, entries': map<int, int>, image: set<int>, kept: set<int>, gone: set<int>)
    requires entries' == entries - gone && kept + gone <= entries.Keys - image && kept !! gone
    ensures kept <= entries'.Keys - image
  {
  }

  lemma PagesJoin(entries: map<int, int>, entries': map<int, int>, image: set<int>, kept: set<int>, added: set<int>)
    requires entries.Keys <= entries'.Keys && kept <= entries.Keys - image && added <= entries'.Keys - image
    ensures kept + added <= entries'.Keys - image
  {
  }

  lemma ShrinkAllowedIs(size: nat, end: nat, amount: nat)
    ensures ShrinkAllowed(size, end, amount) <==> !(amount > end) && !(Wrap(size - amount) < INITIAL_HEAP)
  {
  }

  lemma GrowAllowedIs(end: nat, amount: nat)
    ensures GrowAllowed(end, amount) <==> !(Wrap(end + amount) >= HEAP_LIMIT) && !(Wrap(end + amount) < end)
  {
  }

  lemma LengthOne(free: seq<int>, free': seq<int>)
    requires free == [] && free' == []
    ensures |free| == 0 && free' == free
  {
  }

  lemma LengthMore(free: seq<int>, free': seq<int>, frame: int)
    requires free == free' + [frame]
    ensures |free| >= 1 && free' == free[..|free| - 1] && frame == free[|free| - 1]
  {
  }

  lemma FlagsAre(usermode: bool, writable: bool)
    ensures var flags := PRESENT + (if usermode then USER else 0) + if writable then WRITE else 0;
            flags < 128 && flags % 2 == 1
  {
  }

  lemma TableSet(tables: map<int, int>, t: int, table: int, frame: int, free: seq<int>, free': seq<int>)
    requires frame !in tables.Values && frame !in free && free == free' + [table]
    ensures t in tables[t := table] && frame !in tables[t := table].Values && frame !in free'
  {
    assert free[|free'|] == table;
  }

  lemma LengthBack(free: seq<int>, free1: seq<int>, frame: int)
    requires free == free1 + [frame] && free1 == []
    ensures |free| == 1 && free == [] + [frame]
  {
  }

  lemma PageNumber(v: nat)
    requires v < STACK_BOTTOM
    ensures 0 <= v / 0x40_0000 < STACK_TABLE && ENTRIES * (v / 0x40_0000) + v / 4096 % 1024 == v / 4096
  {
    assert v / 0x40_0000 == v / 4096 / 1024;
  }

  lemma DirectoryAt(m: PhysMem, pd: int, tables: map<int, int>, large: set<int>, entries: map<int, int>, stack: seq<StackPage>, t: int)
    requires TablesStored(m, pd, tables, large, entries, stack) && 0 <= t < SELF_TABLE && EntriesOK(tables, large, entries)
    ensures var w := Load(m, pd + 4 * t);
            && (t in tables ==> Present(w) && !Large(w) && FrameOf(w) == tables[t] && t !in large)
            && (t in large ==> Present(w) && Large(w))
            && (t !in tables && t !in large ==> !Present(w))
  {
    hide TableOK, StackTableOK, StackPageOK;
  }

  lemma EntryAt(m: PhysMem, pd: int, tables: map<int, int>, large: set<int>, entries: map<int, int>, stack: seq<StackPage>,
                page: nat)
    requires TablesStored(m, pd, tables, large, entries, stack) && EntriesOK(tables, large, entries) && page / 1024 != STACK_TABLE
    ensures page / 1024 in tables ==>
              var w := Load(m, tables[page / 1024] + 4 * (page % 1024));
              (page in entries <==> Present(w)) && (page in entries ==> w == entries[page])
    ensures page in entries ==> page / 1024 in tables
  {
    hide DirectoryOK, TableOK, StackTableOK, StackPageOK;
    if page / 1024 in tables {
      TableWord(m, page / 1024, tables[page / 1024], entries, page % 1024);
    }
  }

  lemma TableWord(m: PhysMem, t: int, frame: int, entries: map<int, int>, i: nat)
    requires TableOK(m, t, frame, entries) && i < ENTRIES
    ensures var w := Load(m, frame + 4 * i);
            if ENTRIES * t + i in entries then w == entries[ENTRIES * t + i] else !Present(w)
  {
  }

  /** The entry of a page below the stack is written. */
  lemma WritePage(m: PhysMem, pd: int, tables: map<int, int>, large: set<int>, entries: map<int, int>, entries': map<int, int>,
                  stack: seq<StackPage>, page: nat, w: int)
    requires TablesStored(m, pd, tables, large, entries, stack) && FramesDiffer(pd, tables, Frames(stack)) && StackShape(stack)
    requires page / 1024 in tables && page / 1024 != STACK_TABLE
    requires entries' - {page} == entries - {page} && if page in entries' then w == entries'[page] else !Present(w)
    ensures TablesStored(m[tables[page / 1024] + 4 * (page % 1024) := w], pd, tables, large, entries', stack)
  {
    hide DirectoryOK, TableOK, StackTableOK, StackPageOK, TablesStored, FramesDiffer, StackShape, Present, Frames;
    ShapeFits(stack);
    assert forall v :: v != page ==> (v in entries' <==> v in entries' - {page}) && (v in entries <==> v in entries - {page});
    forall v | v != page && v in entries
      ensures v in entries' && entries'[v] == entries[v]
    {
      assert (entries' - {page})[v] == (entries - {page})[v];
    }
    WriteTable(m, pd, tables, large, entries, entries', stack, page / 1024, page % 1024, w);
  }

  lemma FlagsFit(frame: int)
    requires IsFrame(frame)
    ensures FrameOf(frame) + (PRESENT + WRITE) % 4096 == frame + PRESENT + WRITE
  {
    EntryOf(frame, PRESENT + WRITE);
  }

  lemma PushedPage(stack: seq<StackPage>, frame: int)
    requires StackShape(stack) && (stack == [] || |stack[|stack| - 1].words| == WORDS)
    ensures StackShape(stack + [StackPage(frame, [])])
    ensures PointerOf(stack + [StackPage(frame, [])]) == STACK_TOP - PAGE * |stack|
    ensures PagesFit(stack)
  {
  }

  lemma NotedShape(stack: seq<StackPage>, frame: int)
    requires StackShape(stack) && stack != [] && |stack[|stack| - 1].words| < WORDS
    ensures StackShape(Noted(stack, frame)) && PointerOf(Noted(stack, frame)) == PointerOf(stack) - 4 && PagesFit(stack)
  {
  }

  lemma StackEntryIn(frame: int, j: nat)
    requires j < ENTRIES
    ensures frame <= StackEntry(frame, j) < frame + PAGE
  {
  }

  lemma StoredTable(m: PhysMem, pd: int, tables: map<int, int>, large: set<int>, entries: map<int, int>, stack: seq<StackPage>)
    requires TablesStored(m, pd, tables, large, entries, stack)
    ensures STACK_TABLE in tables && StackTableOK(m, tables[STACK_TABLE], stack)
  {
  }

  lemma OnlyNew(stack: seq<StackPage>, frame: int)
    ensures var stack' := stack + [StackPage(frame, [])];
            forall j :: 0 <= j < |stack'| ==> (j < |stack| && stack'[j] == stack[j]) || stack'[j].words == []
  {
  }

  /** The word below the k words of a page of the stack. */
  lemma WordAddress(j: nat, k: nat, frame: int)
    requires j < ENTRIES && k < WORDS
    ensures var v, p := STACK_TOP - PAGE * j - 4 * k - 4, STACK_TOP - PAGE * j - 1;
            && v >= 0 && p >= 0 && v / 0x40_0000 == p / 0x40_0000 && v / 4096 % 1024 == p / 4096 % 1024
            && frame + v % 4096 == SlotOf(frame, k)
  {
    StackAddress(j, 1);
    StackAddress(j, 4 * k + 4);
  }

  lemma EntryWritten(m: PhysMem, frame: int, stack: seq<StackPage>, new_: int)
    requires StackTableOK(m, frame, stack) && |stack| < ENTRIES
    ensures StackTableOK(m[StackEntry(frame, |stack|) := new_ + PRESENT + WRITE], frame, stack + [StackPage(new_, [])])
  {
  }
}
