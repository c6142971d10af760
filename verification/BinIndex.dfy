/** Size arithmetic of the allocator: request rounding and the choice of a bin. */
module BinIndex {
  import opened Bits

  const MIN_CHUNK: nat := 16
  const MIN_LARGE: nat := 256
  const NBINS: nat := 32
  /** Sizes at and above this one share bin 31 without a common bit prefix. */
  const SIZE_LIMIT: nat := 0x100_0000
  const SIZE_T_LIMIT: nat := 0x1_0000_0000

  /** REQUEST2SIZE, on 32-bit unsigned arithmetic */
  function RequestToSize(req: nat): nat {
    var padded := (req + 4) % SIZE_T_LIMIT;
    if padded < MIN_CHUNK then MIN_CHUNK else (padded + 7) % SIZE_T_LIMIT / 8 * 8
  }

  predicate RequestOverflow(req: nat) {
    RequestToSize(req) < req
  }

  /** calc_tbin */
  function CalcTbin(size: nat): nat {
    if size < MIN_LARGE then 0
    else if size > 0xFFFF00 then 31
    else
      var msb := Msb(size);
      assert msb >= 8 by { MsbRange(size); }
      2 * (msb - 8) + Shr(size, msb - 1) % 2
  }

  /** TBIN_DEPTH */
  function TbinDepth(index: nat): nat {
    index / 2 + 7
  }

  /** map & -(1 << index) */
  function MaskFrom(map_: nat, index: nat): nat {
    if index == 0 then map_ else 2 * MaskFrom(map_ / 2, index - 1)
  }

  /** calc_leftbin */
  function CalcLeftbin(index: nat, map_: nat): nat
    requires MaskFrom(map_, index) > 0
  {
    Ctz(MaskFrom(map_, index))
  }

  lemma {:induction false} BitOfMask(map_: nat, index: nat, j: nat)
    ensures Bit(MaskFrom(map_, index), j) <==> j >= index && Bit(map_, j)
    decreases index
  {
    if index > 0 {
      BitOfMask(map_ / 2, index - 1, if j > 0 then j - 1 else 0);
      if j > 0 {
        ShrHalf(map_, j);
        ShrHalf(MaskFrom(map_, index), j);
      }
    }
  }

  /** calc_leftbin finds the lowest occupied bin at or above the index. */
  lemma LeftbinIsLowestOccupied(index: nat, map_: nat)
    requires MaskFrom(map_, index) > 0
    ensures var i := CalcLeftbin(index, map_);
            i >= index && Bit(map_, i) && forall j :: index <= j < i ==> !Bit(map_, j)
  {
    var masked := MaskFrom(map_, index);
    CtzIsLowestBit(masked);
    BitOfMask(map_, index, Ctz(masked));
    forall j | index <= j < Ctz(masked)
      ensures !Bit(map_, j)
    {
      BitOfMask(map_, index, j);
      assert !Bit(masked, j);
    }
  }

  lemma MsbOfLimit()
    ensures Msb(0xFFFFFF) == 23
  {
    MsbByte(0xFF);
    MsbBytes(0xFFFF);
    MsbBytes(0xFFFFFF);
  }

  lemma MsbOfTop()
    ensures Msb(0xFFFF01) == 23
  {
    MsbByte(0xFF);
    MsbBytes(0xFFFF);
    MsbBytes(0xFFFF01);
  }

  lemma MsbByte(x: nat)
    requires 128 <= x < 256
    ensures Msb(x) == 7
  {
    MsbNibble(x);
    assert Msb(x / 16) == 3 by {
      MsbPair(x / 16);
      assert x / 16 / 4 == 2 || x / 16 / 4 == 3;
    }
  }

  lemma MsbPair(x: nat)
    requires x >= 4
    ensures Msb(x) == 2 + Msb(x / 4)
  {
    assert x / 2 / 2 == x / 4;
  }

  lemma MsbNibble(x: nat)
    requires x >= 16
    ensures Msb(x) == 4 + Msb(x / 16)
  {
    MsbPair(x);
    MsbPair(x / 4);
    assert x / 4 / 4 == x / 16;
  }

  /** Eight bits more. */
  lemma MsbBytes(x: nat)
    requires x >= 256
    ensures Msb(x) == 8 + Msb(x / 256)
  {
    MsbNibble(x);
    MsbNibble(x / 16);
    assert x / 16 / 16 == x / 256;
  }

  lemma MsbRange(size: nat)
    requires MIN_LARGE <= size < SIZE_LIMIT
    ensures 8 <= Msb(size) <= 23
    ensures size > 0xFFFF00 ==> Msb(size) == 23
  {
    assert Msb(size) >= 8 by {
      MsbMonotone(256, size);
      assert Msb(16) == 4;
    }
    assert Msb(size) <= 23 by {
      MsbMonotone(size, 0xFFFFFF);
      MsbOfLimit();
    }
    if size > 0xFFFF00 {
      MsbMonotone(0xFFFF01, size);
      MsbOfTop();
    }
  }

  lemma SecondBitOfBin31(size: nat)
    requires size > 0xFFFF00
    ensures Shr(size, 22) >= 3
  {
    assert Shr(0xFFFF01, 6) == 0x3FFFC;
    assert Shr(0xFFFF01, 12) == 0xFFF;
    assert Shr(0xFFFF01, 17) == 0x7F;
    ShrMonotone(0xFFFF01, size, 22);
  }

  /** The bin of a size is its two leading bits: below 2^24 they are the same for all sizes of one bin. */
  lemma TbinPrefix(size: nat)
    requires MIN_LARGE <= size < SIZE_LIMIT
    ensures CalcTbin(size) < NBINS
    ensures Shr(size, TbinDepth(CalcTbin(size))) == 2 + CalcTbin(size) % 2
  {
    MsbRange(size);
    MsbShift(size);
    var msb := Msb(size);
    ShrShr(size, msb - 1, 1);
    HalfOf(Shr(size, msb - 1));
    if size > 0xFFFF00 {
      SecondBitOfBin31(size);
    }
    hide Shr, Msb;
  }

  lemma HalfOf(x: nat)
    ensures Shr(x, 1) == x / 2
  {
  }

  /** The bound is sharp: from 2^24 on bin 31 holds sizes that do not begin with its bits. */
  lemma TbinPrefixExact(size: nat)
    requires MIN_LARGE <= size
    ensures Shr(size, TbinDepth(CalcTbin(size))) == 2 + CalcTbin(size) % 2 <==> size < SIZE_LIMIT
  {
    hide Shr, CalcTbin;
    if size < SIZE_LIMIT {
      TbinPrefix(size);
    } else {
      LastBin(size);
      AboveBin31(size);
    }
  }

  lemma LastBin(size: nat)
    requires size > 0xFFFF00
    ensures CalcTbin(size) == 31
  {
  }

  lemma AboveBin31(size: nat)
    requires size >= SIZE_LIMIT
    ensures Shr(size, 22) >= 4
  {
    assert Shr(0x100_0000, 6) == 0x4_0000;
    assert Shr(0x100_0000, 12) == 0x1000;
    assert Shr(0x100_0000, 17) == 0x80;
    ShrMonotone(0x100_0000, size, 22);
  }

  /** Two sizes in one bin share the prefix; sizes with the prefix of a bin are in it. */
  lemma TbinOfPrefix(size: nat, index: nat)
    requires MIN_LARGE <= size < SIZE_LIMIT && index < NBINS
    requires Shr(size, TbinDepth(index)) == 2 + index % 2
    ensures CalcTbin(size) == index
  {
    hide Shr, CalcTbin;
    TbinPrefix(size);
    var i := CalcTbin(size);
    var d, e := TbinDepth(index), TbinDepth(i);
    if e < d {
      ShrShr(size, e, d - e);
      ShrToOne(Shr(size, e), d - e);
    } else if d < e {
      ShrShr(size, d, e - d);
      ShrToOne(Shr(size, d), e - d);
    }
  }

  lemma {:induction false} ShrToOne(x: nat, d: nat)
    requires x < 4 && d > 0
    ensures Shr(x, d) <= 1
  {
    if d > 1 {
      ShrToOne(x, d - 1);
    }
  }

  /** A larger size never lands in a lower bin, so every chunk of a higher bin is larger. */
  lemma TbinMonotone(x: nat, y: nat)
    requires x <= y
    ensures CalcTbin(x) <= CalcTbin(y)
  {
    if MIN_LARGE <= x <= 0xFFFF00 {
      MsbRange(x);
      if y <= 0xFFFF00 {
        MsbRange(y);
        MsbMonotone(x, y);
        if Msb(x) == Msb(y) {
          ShrMonotone(x, y, Msb(x) - 1);
          MsbShift(x);
          MsbShift(y);
        }
      }
    }
  }

  /** Rounding a request gives an aligned chunk with room for it and less than eleven bytes to spare. */
  lemma RequestToSizeRounds(req: nat)
    requires req < SIZE_T_LIMIT && !RequestOverflow(req)
    ensures var s := RequestToSize(req);
            s % 8 == 0 && s >= MIN_CHUNK && req + 4 <= s && (s == MIN_CHUNK || s < req + 12)
  {
  }
}
