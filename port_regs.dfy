/*
 * The GPIO register surface the driver programs: one block of ten 32-bit
 * registers per port (GPIODIR, GPIODATA, GPIOPUR, GPIOPDR, GPIODEN, GPIOAMSEL,
 * GPIOAFSEL, GPIOPCTL, GPIOLOCK, GPIOCR), and the bit and nibble operations of
 * the SET_BIT / CLEAR_BIT macros and the `&= ~(0xF << n*4)` idiom.
 *
 * Physical base addresses and register offsets are replaced by this abstract
 * block; every access of Port.c is one read-modify-write step on one register
 * of it (SetRegBit, ClearRegBit, AndReg, OrReg, or a plain store Put).
 */
module PortRegs {
  import opened PortTypes

  /** `1 << i` as a 32-bit value. */
  function BitMask(i: uint8): bv32
    requires i < 32
  {
    1 << (i as bv32)
  }

  /** SET_BIT(REG, i): REG | (1 << i). */
  function SetBit(x: bv32, i: uint8): bv32
    requires i < 32
  {
    x | BitMask(i)
  }

  /** CLEAR_BIT(REG, i): REG & ~(1 << i). */
  function ClearBit(x: bv32, i: uint8): bv32
    requires i < 32
  {
    x & !BitMask(i)
  }

  /** Bit i of x is one. */
  predicate BitIsSet(x: bv32, i: uint8)
    requires i < 32
  {
    (x >> (i as bv32)) & 1 == 1
  }

  /** `0x0000000F << (k * 4)`: the four GPIOPCTL bits (PMCk) that select pin k's function. */
  function NibbleMask(k: uint8): bv32
    requires k < 8
  {
    0xF << (4 * (k as bv32))
  }

  /** The PMCk field (pin k's function selector) of a GPIOPCTL value. */
  function Nibble(x: bv32, k: uint8): bv32
    requires k < 8
  {
    (x & NibbleMask(k)) >> (4 * (k as bv32))
  }

  lemma SetBitAt(x: bv32, i: uint8, j: uint8)
    requires i < 32 && j < 32
    ensures BitIsSet(SetBit(x, i), j) == (i == j || BitIsSet(x, j))
  {
  }

  lemma ClearBitAt(x: bv32, i: uint8, j: uint8)
    requires i < 32 && j < 32
    ensures BitIsSet(ClearBit(x, i), j) == (i != j && BitIsSet(x, j))
  {
  }

  lemma ClearNibbleAt(x: bv32, i: uint8, k: uint8)
    requires i < 8 && k < 8
    ensures Nibble(x & !NibbleMask(i), k) == if i == k then 0 else Nibble(x, k)
  {
  }

  /** A value equal to x with field i cleared. */
  lemma ClearedNibble(x: bv32, y: bv32, i: uint8, k: uint8)
    requires i < 8 && k < 8 && y == x & !NibbleMask(i)
    ensures Nibble(y, k) == if i == k then 0 else Nibble(x, k)
  {
    ClearNibbleAt(x, i, k);
  }

  /** Clearing field i and OR-ing m into it leaves m in field i and no other field changed. */
  lemma SetNibbleAt(x: bv32, m: uint8, i: uint8, k: uint8)
    requires i < 8 && k < 8 && m < 16
    ensures Nibble((x & !NibbleMask(i)) | ((m as bv32) << (4 * (i as bv32))), k)
            == if i == k then m as bv32 else Nibble(x, k)
  {
    if i == k {
    } else {
    }
  }

  /** The registers of a block, numbered in the order of the offsets of Port_Regs.h
      that the driver uses. */
  newtype Reg = x: int | 0 <= x < 10

  const DIR: Reg := 0
  const DATA: Reg := 1
  const PUR: Reg := 2
  const PDR: Reg := 3
  const DEN: Reg := 4
  const AMSEL: Reg := 5
  const AFSEL: Reg := 6
  const PCTL: Reg := 7
  const LOCK: Reg := 8
  const CR: Reg := 9

  /** The registers of one GPIO port, indexed by Reg. */
  type PortBlock = b: seq<bv32> | |b| == 10 witness [0, 0, 0, 0, 0, 0, 0, 0, 0, 0]

  /** The registers that hold one bit per pin (GPIOPCTL holds a nibble per pin, GPIOLOCK a key). */
  predicate PerPin(r: Reg) {
    r != PCTL && r != LOCK
  }

  function Get(b: PortBlock, r: Reg): bv32 {
    b[r]
  }

  /** The block after a store of v into register r. */
  function Put(b: PortBlock, r: Reg, v: bv32): PortBlock {
    b[r := v]
  }

  /** A store into register r changes register r to v and no other register. */
  lemma GetPut(b: PortBlock, r: Reg, v: bv32, r': Reg)
    ensures Get(Put(b, r, v), r') == if r' == r then v else Get(b, r')
  {
  }

  // Read-modify-write steps on one register of a block.

  function SetRegBit(b: PortBlock, r: Reg, i: uint8): PortBlock
    requires i < 32
  {
    Put(b, r, SetBit(Get(b, r), i))
  }

  function ClearRegBit(b: PortBlock, r: Reg, i: uint8): PortBlock
    requires i < 32
  {
    Put(b, r, ClearBit(Get(b, r), i))
  }

  function AndReg(b: PortBlock, r: Reg, mask: bv32): PortBlock {
    Put(b, r, Get(b, r) & mask)
  }

  function OrReg(b: PortBlock, r: Reg, bits: bv32): PortBlock {
    Put(b, r, Get(b, r) | bits)
  }

  /** Bit q of register r' after SET_BIT on bit i of register r. */
  lemma BitAfterSetRegBit(b: PortBlock, r: Reg, i: uint8, r': Reg, q: uint8)
    requires i < 32 && q < 32
    ensures BitIsSet(Get(SetRegBit(b, r, i), r'), q)
            == if r' == r && q == i then true else BitIsSet(Get(b, r'), q)
  {
    GetPut(b, r, SetBit(Get(b, r), i), r');
    SetBitAt(Get(b, r), i, q);
  }

  /** Bit q of register r' after CLEAR_BIT on bit i of register r. */
  lemma BitAfterClearRegBit(b: PortBlock, r: Reg, i: uint8, r': Reg, q: uint8)
    requires i < 32 && q < 32
    ensures BitIsSet(Get(ClearRegBit(b, r, i), r'), q)
            == if r' == r && q == i then false else BitIsSet(Get(b, r'), q)
  {
    GetPut(b, r, ClearBit(Get(b, r), i), r');
    ClearBitAt(Get(b, r), i, q);
  }

  /** A read-modify-write step on register r leaves every other register alone. */
  lemma OtherRegUnchanged(b: PortBlock, r: Reg, v: bv32, r': Reg)
    requires r' != r
    ensures Get(Put(b, r, v), r') == Get(b, r')
  {
  }

  lemma SetBitTwice(x: bv32, i: uint8)
    requires i < 32
    ensures SetBit(SetBit(x, i), i) == SetBit(x, i)
  {
  }

  lemma ClearBitTwice(x: bv32, i: uint8)
    requires i < 32
    ensures ClearBit(ClearBit(x, i), i) == ClearBit(x, i)
  {
  }

  /** SET_BIT twice on the same bit is SET_BIT once. */
  lemma SetRegBitTwice(b: PortBlock, r: Reg, i: uint8)
    requires i < 32
    ensures SetRegBit(SetRegBit(b, r, i), r, i) == SetRegBit(b, r, i)
  {
    SetBitTwice(Get(b, r), i);
  }

  /** CLEAR_BIT twice on the same bit is CLEAR_BIT once. */
  lemma ClearRegBitTwice(b: PortBlock, r: Reg, i: uint8)
    requires i < 32
    ensures ClearRegBit(ClearRegBit(b, r, i), r, i) == ClearRegBit(b, r, i)
  {
    ClearBitTwice(Get(b, r), i);
  }
}
