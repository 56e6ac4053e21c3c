/*
 * What Port_RefreshPortDirection does: it writes nothing but GPIODIR bits and
 * the JTAG flag; it restores the configured direction of exactly those pins
 * whose descriptor says Pin_direction_changeable_ON (the field is compared
 * with STD_OFF, which is 0, the value of the _ON enumerator) and that come
 * before the first JTAG descriptor of the table; and a second call changes
 * no register.
 */
module PortRefreshProperties {
  import opened PortTypes
  import opened PortCfg
  import opened PortRegs
  import opened PortSpec
  import opened PortProofs

  /** The changeability test `Pin_direction_change == STD_OFF` holds exactly
      for Pin_direction_changeable_ON. */
  lemma DirectionTestMeansChangeable(pc: PinConfig)
    ensures pc.pinDirectionChange.Value() == STD_OFF <==> pc.pinDirectionChange == Pin_direction_changeable_ON
  {
  }

  /** No JTAG descriptor among the first n of the table. */
  predicate JtagFree(pins: seq<PinConfig>, n: nat)
    requires n <= |pins|
  {
    forall j :: 0 <= j < n ==> !IsJtagPin(pins[j])
  }

  /** Iteration i of the loop writes GPIODIR when the flag was low at the
      start, no descriptor up to and including pins[i] is a JTAG pin, and the
      descriptor's direction is marked changeable ON. */
  predicate Restores(pins: seq<PinConfig>, i: nat, flag: uint8)
    requires i < |pins|
  {
    flag == STD_LOW && JtagFree(pins, i + 1) && pins[i].pinDirectionChange == Pin_direction_changeable_ON
  }

  // ---------------------------------------------------- one loop iteration

  lemma RefreshPinParts(s: PortState, pc: PinConfig)
    requires |s.gpio| == 6 && pc.Valid()
    ensures RefreshPin(s, pc).jtagFlag == if IsJtagPin(pc) then STD_HIGH else s.jtagFlag
    ensures var t := RefreshPin(s, pc);
            t.status == s.status && t.configPtr == s.configPtr && t.rcgc2 == s.rcgc2 && t.det == s.det
    ensures var write := s.jtagFlag == STD_LOW && !IsJtagPin(pc) &&
                         pc.pinDirectionChange == Pin_direction_changeable_ON;
            RefreshPin(s, pc).gpio
            == if write then WithDirection(s, pc.portNum, pc.pinNum, pc.pinDirection).gpio else s.gpio
  {
  }

  /** One iteration writes no register but GPIODIR. */
  lemma RefreshPinOtherRegs(s: PortState, pc: PinConfig, p: uint8, r: Reg)
    requires |s.gpio| == 6 && pc.Valid() && p < 6 && r != DIR
    ensures Get(RefreshPin(s, pc).gpio[p], r) == Get(s.gpio[p], r)
  {
    RefreshPinParts(s, pc);
  }

  /** Bit q of GPIODIR of port p after one iteration. */
  lemma RefreshPinBit(s: PortState, pc: PinConfig, p: uint8, q: uint8)
    requires |s.gpio| == 6 && pc.Valid() && p < 6 && q < 32
    ensures var write := s.jtagFlag == STD_LOW && !IsJtagPin(pc) &&
                         pc.pinDirectionChange == Pin_direction_changeable_ON;
            BitIsSet(Get(RefreshPin(s, pc).gpio[p], DIR), q)
            == if write && pc.portNum == p && pc.pinNum == q then pc.pinDirection == PORT_PIN_OUT
               else BitIsSet(Get(s.gpio[p], DIR), q)
  {
    RefreshPinParts(s, pc);
    var write := s.jtagFlag == STD_LOW && !IsJtagPin(pc) &&
                 pc.pinDirectionChange == Pin_direction_changeable_ON;
    if write && pc.portNum == p {
      var b := s.gpio[p];
      var b' := if pc.pinDirection == PORT_PIN_OUT then SetRegBit(b, DIR, pc.pinNum) else ClearRegBit(b, DIR, pc.pinNum);
      assert RefreshPin(s, pc).gpio[p] == b';
      if pc.pinDirection == PORT_PIN_OUT {
        BitAfterSetRegBit(b, DIR, pc.pinNum, DIR, q);
      } else {
        BitAfterClearRegBit(b, DIR, pc.pinNum, DIR, q);
      }
    }
  }

  // -------------------------------------------------------- the whole loop

  /** The loop writes no register but GPIODIR. */
  lemma {:induction false} RefreshLoopOtherRegs(s: PortState, pins: seq<PinConfig>, n: nat, p: uint8, r: Reg)
    requires |s.gpio| == 6 && AllValid(pins) && n <= |pins| && p < 6 && r != DIR
    ensures Get(RefreshLoop(s, pins, n).gpio[p], r) == Get(s.gpio[p], r)
  {
    if n > 0 {
      RefreshLoopOtherRegs(s, pins, n - 1, p, r);
      RefreshPinOtherRegs(RefreshLoop(s, pins, n - 1), pins[n - 1], p, r);
    }
  }

  /** After the first n iterations the JTAG flag is high exactly when it was
      before or one of those descriptors is a JTAG pin. */
  lemma {:induction false} RefreshLoopJtag(s: PortState, pins: seq<PinConfig>, n: nat)
    requires |s.gpio| == 6 && AllValid(pins) && n <= |pins|
    ensures RefreshLoop(s, pins, n).jtagFlag == if JtagFree(pins, n) then s.jtagFlag else STD_HIGH
  {
    if n > 0 {
      RefreshLoopJtag(s, pins, n - 1);
      RefreshPinParts(RefreshLoop(s, pins, n - 1), pins[n - 1]);
    }
  }

  /** Once the JTAG flag is high the loop writes nothing. */
  lemma {:induction false} RefreshLoopFlagHigh(s: PortState, pins: seq<PinConfig>, n: nat)
    requires |s.gpio| == 6 && AllValid(pins) && n <= |pins| && s.jtagFlag == STD_HIGH
    ensures RefreshLoop(s, pins, n).gpio == s.gpio && RefreshLoop(s, pins, n).jtagFlag == STD_HIGH
  {
    if n > 0 {
      RefreshLoopFlagHigh(s, pins, n - 1);
      RefreshPinParts(RefreshLoop(s, pins, n - 1), pins[n - 1]);
    }
  }

  /** The reference value of bit q of GPIODIR of port p after the first n
      iterations, started with the JTAG flag at `flag`. */
  function RefreshBitAfter(pins: seq<PinConfig>, n: nat, flag: uint8, p: uint8, q: uint8, before: bool): bool
    requires n <= |pins|
  {
    match Named(pins, n, p, q)
    case None => before
    case Some(i) => if Restores(pins, i, flag) then pins[i].pinDirection == PORT_PIN_OUT else before
  }

  lemma RefreshBitAfterStep(pins: seq<PinConfig>, n: nat, flag: uint8, p: uint8, q: uint8, before: bool, flagNow: uint8)
    requires DistinctPins(pins) && 0 < n <= |pins|
    requires flagNow == if JtagFree(pins, n - 1) then flag else STD_HIGH
    ensures var pc := pins[n - 1];
            var write := flagNow == STD_LOW && !IsJtagPin(pc) &&
                         pc.pinDirectionChange == Pin_direction_changeable_ON;
            RefreshBitAfter(pins, n, flag, p, q, before)
            == if write && pc.portNum == p && pc.pinNum == q then pc.pinDirection == PORT_PIN_OUT
               else RefreshBitAfter(pins, n - 1, flag, p, q, before)
  {
    var pc := pins[n - 1];
    if pc.portNum == p && pc.pinNum == q {
      assert Named(pins, n, p, q) == Some(n - 1);
      assert JtagFree(pins, n) <==> JtagFree(pins, n - 1) && !IsJtagPin(pc);
    }
  }

  /** After the first n iterations, bit q of GPIODIR of port p holds the
      configured direction when the descriptor naming that pin restores it,
      and its earlier value otherwise. */
  lemma {:induction false} RefreshLoopBit(s: PortState, pins: seq<PinConfig>, n: nat, p: uint8, q: uint8)
    requires |s.gpio| == 6 && AllValid(pins) && DistinctPins(pins) && n <= |pins| && p < 6 && q < 32
    ensures BitIsSet(Get(RefreshLoop(s, pins, n).gpio[p], DIR), q)
            == RefreshBitAfter(pins, n, s.jtagFlag, p, q, BitIsSet(Get(s.gpio[p], DIR), q))
  {
    if n > 0 {
      var prev := RefreshLoop(s, pins, n - 1);
      RefreshLoopBit(s, pins, n - 1, p, q);
      RefreshLoopJtag(s, pins, n - 1);
      RefreshPinBit(prev, pins[n - 1], p, q);
      RefreshBitAfterStep(pins, n, s.jtagFlag, p, q, BitIsSet(Get(s.gpio[p], DIR), q), prev.jtagFlag);
    }
  }

  // --------------------------------------- Port_RefreshPortDirection as a whole

  /** The call reports PORT_E_UNINIT before Port_Init and nothing otherwise,
      and changes no register but GPIODIR, nor the clock gating, the status or
      the stored table. */
  lemma RefreshOnlyDirection(s: PortState, p: uint8, r: Reg)
    requires WellFormed(s) && p < 6 && r != DIR
    ensures var t := RefreshSpec(s);
            t.det == s.det + (if s.status == PORT_NOT_INITIALIZED
                              then [PortError(Port_Refresh_Port_Direction_SID, PORT_E_UNINIT)] else []) &&
            t.status == s.status && t.configPtr == s.configPtr && t.rcgc2 == s.rcgc2 &&
            Get(t.gpio[p], r) == Get(s.gpio[p], r)
  {
    var s1 := if s.status == PORT_NOT_INITIALIZED
              then Report(s, [PortError(Port_Refresh_Port_Direction_SID, PORT_E_UNINIT)]) else s;
    if s1.configPtr.Some? {
      RefreshLoopFrame(s1, s1.configPtr.value.pins, |s1.configPtr.value.pins|);
      RefreshLoopOtherRegs(s1, s1.configPtr.value.pins, |s1.configPtr.value.pins|, p, r);
    }
  }

  /** With a table: the JTAG flag ends high exactly when it was high or the
      table holds a JTAG pin, and a flag already high means no register is written. */
  lemma RefreshJtag(s: PortState)
    requires WellFormed(s) && s.configPtr.Some?
    ensures RefreshSpec(s).jtagFlag
            == if JtagFree(s.configPtr.value.pins, |s.configPtr.value.pins|) then s.jtagFlag else STD_HIGH
    ensures s.jtagFlag == STD_HIGH ==> RefreshSpec(s).gpio == s.gpio
  {
    var s1 := if s.status == PORT_NOT_INITIALIZED
              then Report(s, [PortError(Port_Refresh_Port_Direction_SID, PORT_E_UNINIT)]) else s;
    var pins := s.configPtr.value.pins;
    RefreshLoopJtag(s1, pins, |pins|);
    if s.jtagFlag == STD_HIGH {
      RefreshLoopFlagHigh(s1, pins, |pins|);
    }
  }

  /** In a table without duplicates, descriptor i's GPIODIR bit ends as its
      configured direction when the descriptor restores it, and keeps its value otherwise. */
  lemma RefreshRestoresPin(s: PortState, i: nat)
    requires WellFormed(s) && s.configPtr.Some? && DistinctPins(s.configPtr.value.pins)
    requires i < |s.configPtr.value.pins|
    ensures var pins := s.configPtr.value.pins;
            var pc := pins[i];
            BitIsSet(Get(RefreshSpec(s).gpio[pc.portNum], DIR), pc.pinNum)
            == if Restores(pins, i, s.jtagFlag) then pc.pinDirection == PORT_PIN_OUT
               else BitIsSet(Get(s.gpio[pc.portNum], DIR), pc.pinNum)
  {
    var s1 := if s.status == PORT_NOT_INITIALIZED
              then Report(s, [PortError(Port_Refresh_Port_Direction_SID, PORT_E_UNINIT)]) else s;
    var pins := s.configPtr.value.pins;
    RefreshLoopBit(s1, pins, |pins|, pins[i].portNum, pins[i].pinNum);
    NamedUnique(pins, |pins|, i);
  }

  // ------------------------------------ the loop's GPIODIR writes as a whole

  /** The descriptor restores a pin of port p. */
  predicate RestoresOn(pc: PinConfig, p: uint8) {
    pc.portNum == p && pc.pinDirectionChange == Pin_direction_changeable_ON
  }

  /** With the flag low and no JTAG descriptor, bit q of GPIODIR of port p
      after the first n iterations: the direction of the last descriptor
      among them that restores that pin, or `before` when none does. This
      holds for any table, repeated pins included. */
  function FreeBitAfter(pins: seq<PinConfig>, n: nat, p: uint8, q: uint8, before: bool): bool
    requires n <= |pins|
  {
    if n == 0 then before
    else if RestoresOn(pins[n - 1], p) && pins[n - 1].pinNum == q then pins[n - 1].pinDirection == PORT_PIN_OUT
    else FreeBitAfter(pins, n - 1, p, q, before)
  }

  /** Some descriptor among the first n restores pin q of port p. */
  predicate Rewrites(pins: seq<PinConfig>, n: nat, p: uint8, q: uint8)
    requires n <= |pins|
  {
    n > 0 && ((RestoresOn(pins[n - 1], p) && pins[n - 1].pinNum == q) || Rewrites(pins, n - 1, p, q))
  }

  /** A rewritten bit does not depend on its earlier value; any other bit
      keeps it. */
  lemma {:induction false} FreeBitShape(pins: seq<PinConfig>, n: nat, p: uint8, q: uint8, before: bool)
    requires n <= |pins|
    ensures FreeBitAfter(pins, n, p, q, before)
            == if Rewrites(pins, n, p, q) then FreeBitAfter(pins, n, p, q, false) else before
  {
    if n > 0 && !(RestoresOn(pins[n - 1], p) && pins[n - 1].pinNum == q) {
      FreeBitShape(pins, n - 1, p, q, before);
      FreeBitShape(pins, n - 1, p, q, false);
    }
  }

  /** Running the same iterations over their own result changes no bit. */
  lemma FreeBitTwice(pins: seq<PinConfig>, n: nat, p: uint8, q: uint8, before: bool)
    requires n <= |pins|
    ensures FreeBitAfter(pins, n, p, q, FreeBitAfter(pins, n, p, q, before))
            == FreeBitAfter(pins, n, p, q, before)
  {
    FreeBitShape(pins, n, p, q, before);
    FreeBitShape(pins, n, p, q, FreeBitAfter(pins, n, p, q, before));
  }

  /** With the flag low and no JTAG descriptor among the first n, bit q of
      GPIODIR of port p after them is FreeBitAfter of its old value. */
  lemma {:induction false} RefreshLoopFreeBit(s: PortState, pins: seq<PinConfig>, n: nat, p: uint8, q: uint8)
    requires |s.gpio| == 6 && AllValid(pins) && n <= |pins| && p < 6 && q < 32
    requires s.jtagFlag == STD_LOW && JtagFree(pins, n)
    ensures BitIsSet(Get(RefreshLoop(s, pins, n).gpio[p], DIR), q)
            == FreeBitAfter(pins, n, p, q, BitIsSet(Get(s.gpio[p], DIR), q))
  {
    if n > 0 {
      var prev := RefreshLoop(s, pins, n - 1);
      assert JtagFree(pins, n - 1) && !IsJtagPin(pins[n - 1]);
      RefreshLoopFreeBit(s, pins, n - 1, p, q);
      RefreshLoopJtag(s, pins, n - 1);
      RefreshPinBit(prev, pins[n - 1], p, q);
    }
  }

  /** Two registers that agree on each of bits 0 to 31 are equal. */
  lemma SameBits(a: bv32, b: bv32)
    requires BitIsSet(a, 0) == BitIsSet(b, 0) && BitIsSet(a, 1) == BitIsSet(b, 1) &&
             BitIsSet(a, 2) == BitIsSet(b, 2) && BitIsSet(a, 3) == BitIsSet(b, 3) &&
             BitIsSet(a, 4) == BitIsSet(b, 4) && BitIsSet(a, 5) == BitIsSet(b, 5) &&
             BitIsSet(a, 6) == BitIsSet(b, 6) && BitIsSet(a, 7) == BitIsSet(b, 7) &&
             BitIsSet(a, 8) == BitIsSet(b, 8) && BitIsSet(a, 9) == BitIsSet(b, 9) &&
             BitIsSet(a, 10) == BitIsSet(b, 10) && BitIsSet(a, 11) == BitIsSet(b, 11) &&
             BitIsSet(a, 12) == BitIsSet(b, 12) && BitIsSet(a, 13) == BitIsSet(b, 13) &&
             BitIsSet(a, 14) == BitIsSet(b, 14) && BitIsSet(a, 15) == BitIsSet(b, 15) &&
             BitIsSet(a, 16) == BitIsSet(b, 16) && BitIsSet(a, 17) == BitIsSet(b, 17) &&
             BitIsSet(a, 18) == BitIsSet(b, 18) && BitIsSet(a, 19) == BitIsSet(b, 19) &&
             BitIsSet(a, 20) == BitIsSet(b, 20) && BitIsSet(a, 21) == BitIsSet(b, 21) &&
             BitIsSet(a, 22) == BitIsSet(b, 22) && BitIsSet(a, 23) == BitIsSet(b, 23) &&
             BitIsSet(a, 24) == BitIsSet(b, 24) && BitIsSet(a, 25) == BitIsSet(b, 25) &&
             BitIsSet(a, 26) == BitIsSet(b, 26) && BitIsSet(a, 27) == BitIsSet(b, 27) &&
             BitIsSet(a, 28) == BitIsSet(b, 28) && BitIsSet(a, 29) == BitIsSet(b, 29) &&
             BitIsSet(a, 30) == BitIsSet(b, 30) && BitIsSet(a, 31) == BitIsSet(b, 31)
    ensures a == b
  {
  }

  /** Two registers with the same 32 bits are equal. */
  lemma BitsEqual(a: bv32, b: bv32)
    requires forall q: uint8 :: q < 32 ==> BitIsSet(a, q) == BitIsSet(b, q)
    ensures a == b
  {
    SameBits(a, b);
  }

  /** Two blocks that agree on every register are equal. */
  lemma BlockExt(a: PortBlock, b: PortBlock)
    requires forall r: Reg :: Get(a, r) == Get(b, r)
    ensures a == b
  {
    forall i | 0 <= i < 10
      ensures a[i] == b[i]
    {
      assert Get(a, i as Reg) == Get(b, i as Reg);
    }
  }

  /** GPIODIR after the loop run twice, flag low and no JTAG descriptor. */
  lemma RefreshLoopTwiceDir(s: PortState, pins: seq<PinConfig>, p: uint8)
    requires |s.gpio| == 6 && AllValid(pins) && p < 6
    requires s.jtagFlag == STD_LOW && JtagFree(pins, |pins|)
    ensures var t := RefreshLoop(s, pins, |pins|);
            Get(RefreshLoop(t, pins, |pins|).gpio[p], DIR) == Get(t.gpio[p], DIR)
  {
    var n := |pins|;
    var t := RefreshLoop(s, pins, n);
    var u := RefreshLoop(t, pins, n);
    RefreshLoopJtag(s, pins, n);
    forall q: uint8 | q < 32
      ensures BitIsSet(Get(u.gpio[p], DIR), q) == BitIsSet(Get(t.gpio[p], DIR), q)
    {
      RefreshLoopFreeBit(s, pins, n, p, q);
      RefreshLoopFreeBit(t, pins, n, p, q);
      FreeBitTwice(pins, n, p, q, BitIsSet(Get(s.gpio[p], DIR), q));
    }
    BitsEqual(Get(u.gpio[p], DIR), Get(t.gpio[p], DIR));
  }

  /** The block of port p after the loop run twice, flag low and no JTAG descriptor. */
  lemma RefreshLoopTwiceBlock(s: PortState, pins: seq<PinConfig>, p: uint8)
    requires |s.gpio| == 6 && AllValid(pins) && p < 6
    requires s.jtagFlag == STD_LOW && JtagFree(pins, |pins|)
    ensures var t := RefreshLoop(s, pins, |pins|);
            RefreshLoop(t, pins, |pins|).gpio[p] == t.gpio[p]
  {
    var n := |pins|;
    var t := RefreshLoop(s, pins, n);
    var u := RefreshLoop(t, pins, n);
    forall r: Reg
      ensures Get(u.gpio[p], r) == Get(t.gpio[p], r)
    {
      if r == DIR {
        RefreshLoopTwiceDir(s, pins, p);
      } else {
        RefreshLoopOtherRegs(t, pins, n, p, r);
      }
    }
    BlockExt(u.gpio[p], t.gpio[p]);
  }

  /** All six blocks after the loop run twice, flag low and no JTAG descriptor. */
  lemma RefreshLoopTwiceGpio(s: PortState, pins: seq<PinConfig>)
    requires |s.gpio| == 6 && AllValid(pins)
    requires s.jtagFlag == STD_LOW && JtagFree(pins, |pins|)
    ensures var t := RefreshLoop(s, pins, |pins|);
            RefreshLoop(t, pins, |pins|).gpio == t.gpio
  {
    var t := RefreshLoop(s, pins, |pins|);
    var u := RefreshLoop(t, pins, |pins|);
    RefreshLoopTwiceBlock(s, pins, 0);
    RefreshLoopTwiceBlock(s, pins, 1);
    RefreshLoopTwiceBlock(s, pins, 2);
    RefreshLoopTwiceBlock(s, pins, 3);
    RefreshLoopTwiceBlock(s, pins, 4);
    RefreshLoopTwiceBlock(s, pins, 5);
    SixBlocks(u.gpio, t.gpio);
  }

  /** Two register files of six blocks that agree block by block are equal. */
  lemma SixBlocks(a: seq<PortBlock>, b: seq<PortBlock>)
    requires |a| == 6 && |b| == 6
    requires a[0] == b[0] && a[1] == b[1] && a[2] == b[2] && a[3] == b[3] && a[4] == b[4] && a[5] == b[5]
    ensures a == b
  {
    assert forall i | 0 <= i < 6 :: a[i] == b[i];
  }

  /** Running the whole loop a second time changes nothing, for any table. */
  lemma RefreshLoopTwice(s: PortState, pins: seq<PinConfig>)
    requires |s.gpio| == 6 && AllValid(pins)
    requires s.jtagFlag == STD_LOW || s.jtagFlag == STD_HIGH
    ensures RefreshLoop(RefreshLoop(s, pins, |pins|), pins, |pins|) == RefreshLoop(s, pins, |pins|)
  {
    var n := |pins|;
    var t := RefreshLoop(s, pins, n);
    var u := RefreshLoop(t, pins, n);
    RefreshLoopFrame(s, pins, n);
    RefreshLoopFrame(t, pins, n);
    RefreshLoopJtag(s, pins, n);
    RefreshLoopJtag(t, pins, n);
    if s.jtagFlag == STD_LOW && JtagFree(pins, n) {
      RefreshLoopTwiceGpio(s, pins);
    } else {
      RefreshLoopFlagHigh(t, pins, n);
    }
    assert u.gpio == t.gpio;
  }

  /** A second call reports the same errors again and changes nothing else,
      for any table, duplicates included. */
  lemma RefreshIdempotent(s: PortState)
    requires WellFormed(s)
    ensures WellFormed(RefreshSpec(s))
    ensures RefreshSpec(RefreshSpec(s))
            == Report(RefreshSpec(s), if s.status == PORT_NOT_INITIALIZED
                                      then [PortError(Port_Refresh_Port_Direction_SID, PORT_E_UNINIT)] else [])
  {
    RefreshWellFormed(s);
    var t := RefreshSpec(s);
    RefreshOnlyDirection(s, 0, PCTL);
    if s.configPtr.Some? {
      var pins := s.configPtr.value.pins;
      assert t == RefreshLoop(s, pins, |pins|);
      RefreshLoopTwice(s, pins);
      assert t.det + [] == t.det;
    }
  }
}
