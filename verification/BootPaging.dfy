/** The page tables that the boot code sets up before the kernel runs (boot.S). */
module BootPaging {
  import opened Paging

  /** The page directory entry of the kernel's first address, and the number of its first page. */
  const KERNEL_TABLE: nat := 768
  const KERNEL_PAGE: nat := 0xC_0000

  /** Entry i of the table in a frame. */
  function WordAt(m: PhysMem, frame: int, i: int): int {
    Load(m, frame + 4 * i)
  }

  /** Large pages below the kernel, the page table of the kernel with all memory from address 0 to the kernel's end, and
      an empty page table for the stack of free frames. */
  ghost predicate BootPages(m: PhysMem, pd: int, kernelTable: int, stackTable: int, kernelEnd: nat) {
    && IsFrame(pd) && IsFrame(kernelTable) && IsFrame(stackTable)
    && pd != kernelTable && pd != stackTable && kernelTable != stackTable
    && (forall t :: 0 <= t < KERNEL_TABLE ==> WordAt(m, pd, t) == 0x40_0000 * t + 0x83)
    && WordAt(m, pd, KERNEL_TABLE) == kernelTable + PRESENT + WRITE
    && (forall t :: KERNEL_TABLE < t < STACK_TABLE ==> WordAt(m, pd, t) == 0)
    && WordAt(m, pd, STACK_TABLE) == stackTable + PRESENT + WRITE
    && KernelTableOK(m, kernelTable, kernelEnd)
    && (forall a :: stackTable <= a < stackTable + PAGE ==> Load(m, a) == 0)
  }

  ghost predicate KernelTableOK(m: PhysMem, kernelTable: int, kernelEnd: nat) {
    forall i :: 0 <= i < ENTRIES ==>
      WordAt(m, kernelTable, i) == if 4096 * i < kernelEnd then 4096 * i + PRESENT + WRITE else 0
  }

  predicate BelowKernel(t: int) {
    0 <= t < KERNEL_TABLE
  }

  function BootLarge(): set<int> {
    set t | 0 <= t < KERNEL_TABLE && BelowKernel(t)
  }

  predicate InImage(v: int, kernelEnd: nat) {
    KERNEL_PAGE <= v < KERNEL_PAGE + ENTRIES && 4096 * (v - KERNEL_PAGE) < kernelEnd
  }

  function BootEntries(kernelEnd: nat): map<int, int> {
    map v | KERNEL_PAGE <= v < KERNEL_PAGE + ENTRIES && InImage(v, kernelEnd) :: 4096 * (v - KERNEL_PAGE) + PRESENT + WRITE
  }

  function BootTables(kernelTable: int, stackTable: int): map<int, int> {
    map[KERNEL_TABLE := kernelTable, STACK_TABLE := stackTable]
  }

  lemma TablesAre(kernelTable: int, stackTable: int, t: int)
    ensures t in BootTables(kernelTable, stackTable) <==> t == KERNEL_TABLE || t == STACK_TABLE
    ensures BootTables(kernelTable, stackTable)[KERNEL_TABLE] == kernelTable
    ensures BootTables(kernelTable, stackTable)[STACK_TABLE] == stackTable
  {
  }

  lemma LargeAre(t: int)
    ensures t in BootLarge() <==> 0 <= t < KERNEL_TABLE
  {
  }

  lemma EntriesAre(kernelEnd: nat, v: int)
    ensures v in BootEntries(kernelEnd) <==> KERNEL_PAGE <= v < KERNEL_PAGE + ENTRIES && 4096 * (v - KERNEL_PAGE) < kernelEnd
    ensures v in BootEntries(kernelEnd) ==> BootEntries(kernelEnd)[v] == 4096 * (v - KERNEL_PAGE) + PRESENT + WRITE
  {
  }

  lemma LargeWord(t: int)
    requires 0 <= t < KERNEL_TABLE
    ensures var w := 0x40_0000 * t + 0x83; Present(w) && Large(w)
  {
    assert (0x40_0000 * t + 0x83) / 128 == 0x8000 * t + 1;
  }

  lemma DirectoryWords(m: PhysMem, pd: int, kernelTable: int, stackTable: int, kernelEnd: nat, t: int)
    requires BootPages(m, pd, kernelTable, stackTable, kernelEnd) && 0 <= t < SELF_TABLE
    ensures WordAt(m, pd, t) == if t < KERNEL_TABLE then 0x40_0000 * t + 0x83
                                else if t == KERNEL_TABLE then kernelTable + PRESENT + WRITE
                                else if t == STACK_TABLE then stackTable + PRESENT + WRITE
                                else 0
    ensures WordAt(m, pd, t) == Load(m, pd + 4 * t)
  {
  }

  lemma BootDirectory(m: PhysMem, pd: int, kernelTable: int, stackTable: int, kernelEnd: nat)
    requires BootPages(m, pd, kernelTable, stackTable, kernelEnd)
    ensures DirectoryOK(m, pd, BootTables(kernelTable, stackTable), BootLarge())
  {
    var tables := BootTables(kernelTable, stackTable);
    forall t | 0 <= t < SELF_TABLE
      ensures var w := Load(m, pd + 4 * t);
              if t in tables then Present(w) && !Large(w) && FrameOf(w) == tables[t]
              else if t in BootLarge() then Present(w) && Large(w)
              else !Present(w)
    {
      hide *;
      FramesAre(m, pd, kernelTable, stackTable, kernelEnd);
      TablesAre(kernelTable, stackTable, t);
      LargeAre(t);
      DirectoryWords(m, pd, kernelTable, stackTable, kernelEnd, t);
      EntryOf(kernelTable, PRESENT + WRITE);
      EntryOf(stackTable, PRESENT + WRITE);
      NoWord();
      if t < KERNEL_TABLE {
        LargeWord(t);
      }
    }
  }

  lemma FramesAre(m: PhysMem, pd: int, kernelTable: int, stackTable: int, kernelEnd: nat)
    requires BootPages(m, pd, kernelTable, stackTable, kernelEnd)
    ensures IsFrame(kernelTable) && IsFrame(stackTable) && IsFrame(pd)
    ensures pd != kernelTable && pd != stackTable && kernelTable != stackTable
    ensures 0 < PRESENT + WRITE < 128 && (PRESENT + WRITE) % 2 == 1 && PAGE > 128
  {
  }

  lemma NoWord()
    ensures !Present(0)
  {
  }

  lemma KernelWord(i: int)
    requires 0 <= i
    ensures Present(4096 * i + PRESENT + WRITE)
  {
  }

  lemma BootTable(m: PhysMem, kernelTable: int, kernelEnd: nat)
    requires KernelTableOK(m, kernelTable, kernelEnd)
    ensures TableOK(m, KERNEL_TABLE, kernelTable, BootEntries(kernelEnd))
  {
    forall i | 0 <= i < ENTRIES
      ensures var w, v := Load(m, kernelTable + 4 * i), ENTRIES * KERNEL_TABLE + i;
              if v in BootEntries(kernelEnd) then w == BootEntries(kernelEnd)[v] else !Present(w)
    {
      hide BootEntries;
      NoWord();
      EntriesAre(kernelEnd, ENTRIES * KERNEL_TABLE + i);
      assert WordAt(m, kernelTable, i) == Load(m, kernelTable + 4 * i);
    }
    hide BootEntries;
  }

  lemma BootBounds(kernelTable: int, stackTable: int, kernelEnd: nat)
    ensures EntriesOK(BootTables(kernelTable, stackTable), BootLarge(), BootEntries(kernelEnd))
  {
    var tables, entries := BootTables(kernelTable, stackTable), BootEntries(kernelEnd);
    forall v | v in entries
      ensures 0 <= v < ENTRIES * STACK_TABLE && v / ENTRIES in tables && Present(entries[v])
    {
      hide BootEntries, BootTables;
      EntriesAre(kernelEnd, v);
      TablesAre(kernelTable, stackTable, v / ENTRIES);
      KernelWord(v - KERNEL_PAGE);
    }
    hide BootEntries;
  }

  lemma BootStored(m: PhysMem, pd: int, kernelTable: int, stackTable: int, kernelEnd: nat)
    requires BootPages(m, pd, kernelTable, stackTable, kernelEnd)
    ensures var tables, entries := BootTables(kernelTable, stackTable), BootEntries(kernelEnd);
            && TablesStored(m, pd, tables, BootLarge(), entries, []) && EntriesOK(tables, BootLarge(), entries)
            && Distinct(pd, tables, entries - entries.Keys, Frames([]))
    ensures StackShape([]) && PointerOf([]) == STACK_TOP
  {
    hide DirectoryOK, TableOK, KernelTableOK, BootEntries, BootLarge, EntriesOK, Present, IsFrame;
    BootDirectory(m, pd, kernelTable, stackTable, kernelEnd);
    BootTable(m, kernelTable, kernelEnd);
    BootBounds(kernelTable, stackTable, kernelEnd);
    NoWord();
    assert StackTableOK(m, stackTable, []);
  }
}
