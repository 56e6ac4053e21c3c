/*
 * What Port_SetPinMode does: the errors it reports, that none of them stops
 * the writes that follow, which GPIOAMSEL / GPIOAFSEL / GPIODEN bits each mode
 * sets, what reaches GPIOPCTL (for an alternate function, `Mode & 0xF << n*4`
 * with the shift binding first, so only pins 0 and 1 can receive bits of the
 * mode), that PC0..PC3 are left alone, and that a repeated call writes nothing new.
 */
module PortModeProperties {
  import opened PortTypes
  import opened PortCfg
  import opened PortRegs
  import opened PortSpec
  import opened PortProofs
  import opened PortInitProperties

  /** The changeability test `Pin_modeChange == STD_OFF` holds exactly for
      Pin_mode_changeable_ON. */
  lemma ModeTestMeansChangeable(pc: PinConfig)
    ensures pc.pinModeChange.Value() == STD_OFF <==> pc.pinModeChange == Pin_mode_changeable_ON
  {
  }

  /** The JTAG test of Port_SetPinMode picks out the same pins as the one of the other services. */
  lemma JtagTestsAgree(pc: PinConfig)
    requires pc.Valid()
    ensures IsJtagPinInSetPinMode(pc) <==> IsJtagPin(pc)
  {
  }

  // ------------------------------------------------------------------ errors

  /** The call reports nothing exactly when the driver is initialized, Pin is in
      range, Mode is the digital I/O mode (every other mode is reported as
      invalid) and the pin's descriptor says Pin_mode_changeable_OFF. */
  lemma SetPinModeNoErrors(s: PortState, pin: uint8, mode: uint8)
    requires WellFormed(s)
    ensures SetPinModeErrors(s, pin, mode) == []
            <==> s.status == PORT_INITIALIZED && (pin as int) < PORT_CONFIGURED_PINS && mode == PORT_DIO_MODE &&
                 (s.configPtr.Some? ==> s.configPtr.value.pins[pin].pinModeChange == Pin_mode_changeable_OFF)
  {
  }

  /** Each error is reported exactly when its condition holds, all with
      Port_SetPinMode's service ID. */
  lemma SetPinModeErrorCases(s: PortState, pin: uint8, mode: uint8)
    requires WellFormed(s)
    ensures var errors := SetPinModeErrors(s, pin, mode);
            (PortError(Port_Set_Pin_Mode_SID, PORT_E_UNINIT) in errors <==> s.status == PORT_NOT_INITIALIZED) &&
            (PortError(Port_Set_Pin_Mode_SID, PORT_E_PARAM_PIN) in errors <==> pin as int >= PORT_CONFIGURED_PINS) &&
            (PortError(Port_Set_Pin_Mode_SID, PORT_E_PARAM_INVALID_MODE) in errors <==> mode > PORT_DIO_MODE) &&
            (PortError(Port_Set_Pin_Mode_SID, PORT_E_MODE_UNCHANGEABLE) in errors <==>
               PinReadable(s, pin) && s.configPtr.value.pins[pin].pinModeChange == Pin_mode_changeable_ON) &&
            (forall e :: e in errors ==> e.apiId == Port_Set_Pin_Mode_SID && e.moduleId == PORT_MODULE_ID)
  {
  }

  // ------------------------------------------------------ one register block

  /** The value Port_SetPinMode stores in bit Pin_Num of the one-bit-per-pin
      register r for Mode, or None where it leaves that bit as it was. */
  function ModeBitWrite(mode: uint8, r: Reg): Option<bool> {
    if mode == PORT_DIO_MODE then
      if r == AMSEL || r == AFSEL then Some(false) else if r == DEN then Some(true) else None
    else if mode == PORT_ALTERNATE_FUNCTION_ADC_MODE then
      if r == DEN || r == AFSEL then Some(false) else if r == AMSEL then Some(true) else None
    else
      if r == AMSEL then Some(false) else if r == AFSEL || r == DEN then Some(true) else None
  }

  lemma AnalogSelectBit(b: PortBlock, pin: uint8, r: Reg, q: uint8)
    requires pin < 8 && PerPin(r) && q < 32
    ensures BitIsSet(Get(AnalogSelect(b, pin), r), q)
            == if q == pin && (r == DEN || r == AFSEL) then false else BitIsSet(Get(b, r), q)
  {
    var b1 := ClearRegBit(b, DEN, pin);
    BitAfterClearRegBit(b, DEN, pin, r, q);
    BitAfterClearRegBit(b1, AFSEL, pin, r, q);
  }

  lemma AnalogSelectPctl(b: PortBlock, pin: uint8)
    requires pin < 8
    ensures Get(AnalogSelect(b, pin), PCTL) == Get(b, PCTL) & !NibbleMask(pin)
  {
  }

  lemma MergeFunctionFrame(b: PortBlock, pin: uint8, mode: uint8, r: Reg)
    requires pin < 8 && r != PCTL
    ensures Get(MergeFunction(b, pin, mode), r) == Get(b, r)
  {
  }

  lemma AdcModeBit(b: PortBlock, pin: uint8, r: Reg, q: uint8)
    requires pin < 8 && PerPin(r) && q < 32
    ensures BitIsSet(Get(SetPinModeBlock(b, pin, PORT_ALTERNATE_FUNCTION_ADC_MODE), r), q)
            == Written(ModeBitWrite(PORT_ALTERNATE_FUNCTION_ADC_MODE, r), q == pin, BitIsSet(Get(b, r), q))
  {
    AnalogSelectBit(b, pin, r, q);
    BitAfterSetRegBit(AnalogSelect(b, pin), AMSEL, pin, r, q);
  }

  lemma AltModeBit(b: PortBlock, pin: uint8, mode: uint8, r: Reg, q: uint8)
    requires pin < 8 && PerPin(r) && q < 32
    requires mode != PORT_DIO_MODE && mode != PORT_ALTERNATE_FUNCTION_ADC_MODE
    ensures BitIsSet(Get(SetPinModeBlock(b, pin, mode), r), q)
            == Written(ModeBitWrite(mode, r), q == pin, BitIsSet(Get(b, r), q))
  {
    var b1 := ClearRegBit(b, AMSEL, pin);
    var b2 := SetRegBit(b1, AFSEL, pin);
    BitAfterClearRegBit(b, AMSEL, pin, r, q);
    BitAfterSetRegBit(b1, AFSEL, pin, r, q);
    MergeFunctionFrame(b2, pin, mode, r);
    BitAfterSetRegBit(MergeFunction(b2, pin, mode), DEN, pin, r, q);
  }

  /** Bit q of a one-bit-per-pin register after Port_SetPinMode's mode dispatch. */
  lemma SetPinModeBlockBit(b: PortBlock, pin: uint8, mode: uint8, r: Reg, q: uint8)
    requires pin < 8 && PerPin(r) && q < 32
    ensures BitIsSet(Get(SetPinModeBlock(b, pin, mode), r), q)
            == Written(ModeBitWrite(mode, r), q == pin, BitIsSet(Get(b, r), q))
  {
    if mode == PORT_DIO_MODE {
      var b1 := DigitalSelect(b, pin);
      DigitalSelectBit(b, pin, r, q);
      BitAfterSetRegBit(b1, DEN, pin, r, q);
    } else if mode == PORT_ALTERNATE_FUNCTION_ADC_MODE {
      AdcModeBit(b, pin, r, q);
    } else {
      AltModeBit(b, pin, mode, r, q);
    }
  }

  /** GPIOPCTL after the digital I/O or ADC branch: the pin's field cleared. */
  lemma DigitalOrAdcPctl(b: PortBlock, pin: uint8, mode: uint8)
    requires pin < 8 && (mode == PORT_DIO_MODE || mode == PORT_ALTERNATE_FUNCTION_ADC_MODE)
    ensures Get(SetPinModeBlock(b, pin, mode), PCTL) == Get(b, PCTL) & !NibbleMask(pin)
  {
    if mode == PORT_DIO_MODE {
      DigitalSelectPctl(b, pin);
    } else {
      AnalogSelectPctl(b, pin);
    }
  }

  /** GPIOPCTL after the alternate-function branch: the bits of Mode that lie
      under the pin's field are OR-ed in; the field is not cleared first. */
  lemma AltPctl(b: PortBlock, pin: uint8, mode: uint8)
    requires pin < 8 && mode != PORT_DIO_MODE && mode != PORT_ALTERNATE_FUNCTION_ADC_MODE
    ensures Get(SetPinModeBlock(b, pin, mode), PCTL) == Get(b, PCTL) | ((mode as bv32) & NibbleMask(pin))
  {
  }

  /** Mode is eight bits wide, so it has nothing under the fields of pins 2..7. */
  lemma ModeBitsUnderField(mode: uint8, pin: uint8)
    requires 2 <= pin < 8
    ensures (mode as bv32) & NibbleMask(pin) == 0
  {
  }

  lemma OrNibbleAt(x: bv32, m: bv32, i: uint8, k: uint8)
    requires i < 8 && k < 8
    ensures Nibble(x | (m & NibbleMask(i)), k) == if k == i then Nibble(x, k) | Nibble(m, i) else Nibble(x, k)
  {
    if k == i {
    } else {
    }
  }

  lemma DigitalOrAdcNibble(b: PortBlock, pin: uint8, mode: uint8, k: uint8)
    requires pin < 8 && k < 8 && (mode == PORT_DIO_MODE || mode == PORT_ALTERNATE_FUNCTION_ADC_MODE)
    ensures Nibble(Get(SetPinModeBlock(b, pin, mode), PCTL), k) == if k == pin then 0 else Nibble(Get(b, PCTL), k)
  {
    var x := Get(b, PCTL);
    DigitalOrAdcPctl(b, pin, mode);
    ClearNibbleAt(x, pin, k);
    assert Nibble(Get(SetPinModeBlock(b, pin, mode), PCTL), k) == Nibble(x & !NibbleMask(pin), k);
  }

  lemma AltNibble(b: PortBlock, pin: uint8, mode: uint8, k: uint8)
    requires pin < 8 && k < 8 && mode != PORT_DIO_MODE && mode != PORT_ALTERNATE_FUNCTION_ADC_MODE
    ensures Nibble(Get(SetPinModeBlock(b, pin, mode), PCTL), k)
            == if k == pin then Nibble(Get(b, PCTL), k) | Nibble(mode as bv32, pin) else Nibble(Get(b, PCTL), k)
  {
    AltPctl(b, pin, mode);
    OrNibbleAt(Get(b, PCTL), mode as bv32, pin, k);
  }

  /** The PMCk field of GPIOPCTL after Port_SetPinMode's mode dispatch: cleared
      for digital I/O and ADC; for any other mode OR-ed with field `pin` of the
      mode value itself (see AltFunctionLostAbovePin1 for pins 2..7). */
  lemma SetPinModeBlockNibble(b: PortBlock, pin: uint8, mode: uint8, k: uint8)
    requires pin < 8 && k < 8
    ensures Nibble(Get(SetPinModeBlock(b, pin, mode), PCTL), k)
            == if mode == PORT_DIO_MODE || mode == PORT_ALTERNATE_FUNCTION_ADC_MODE then
                 (if k == pin then 0 else Nibble(Get(b, PCTL), k))
               else if k == pin then Nibble(Get(b, PCTL), k) | Nibble(mode as bv32, pin)
               else Nibble(Get(b, PCTL), k)
  {
    if mode == PORT_DIO_MODE || mode == PORT_ALTERNATE_FUNCTION_ADC_MODE {
      DigitalOrAdcNibble(b, pin, mode, k);
    } else {
      AltNibble(b, pin, mode, k);
    }
  }

  /** For pins 2..7 an alternate function never reaches GPIOPCTL. */
  lemma AltFunctionLostAbovePin1(b: PortBlock, pin: uint8, mode: uint8)
    requires 2 <= pin < 8 && mode != PORT_DIO_MODE && mode != PORT_ALTERNATE_FUNCTION_ADC_MODE
    ensures Get(SetPinModeBlock(b, pin, mode), PCTL) == Get(b, PCTL)
  {
    AltPctl(b, pin, mode);
    ModeBitsUnderField(mode, pin);
  }

  /** Port_SetPinMode(pin 2 of a port, mode 1) on a cleared GPIOPCTL leaves the
      pin's field 0, where `(Mode & 0xF) << n*4` would have selected function 1. */
  lemma AltFunctionNotSelectedExample(b: PortBlock)
    requires Get(b, PCTL) == 0
    ensures Nibble(Get(SetPinModeBlock(b, 2, 1), PCTL), 2) == 0
    ensures Nibble(Get(b, PCTL) | ((1 & 0xF) << (4 * 2)), 2) == 1
  {
    AltFunctionLostAbovePin1(b, 2, 1);
  }

  /** Port_SetPinMode's mode dispatch never writes GPIOLOCK. */
  lemma SetPinModeBlockLock(b: PortBlock, pin: uint8, mode: uint8)
    requires pin < 8
    ensures Get(SetPinModeBlock(b, pin, mode), LOCK) == Get(b, LOCK)
  {
  }

  /** The value register r of the pin's port holds after the mode dispatch,
      given the value x it held before: one read-modify-write per register. */
  function ModeRegValue(x: bv32, r: Reg, pin: uint8, mode: uint8): bv32
    requires pin < 8
  {
    if mode == PORT_DIO_MODE then
      if r == AMSEL || r == AFSEL then ClearBit(x, pin)
      else if r == PCTL then x & !NibbleMask(pin)
      else if r == DEN then SetBit(x, pin)
      else x
    else if mode == PORT_ALTERNATE_FUNCTION_ADC_MODE then
      if r == DEN || r == AFSEL then ClearBit(x, pin)
      else if r == PCTL then x & !NibbleMask(pin)
      else if r == AMSEL then SetBit(x, pin)
      else x
    else
      if r == AMSEL then ClearBit(x, pin)
      else if r == PCTL then x | ((mode as bv32) & NibbleMask(pin))
      else if r == AFSEL || r == DEN then SetBit(x, pin)
      else x
  }

  /** Each register after the mode dispatch is ModeRegValue of its old value. */
  lemma SetPinModeBlockReg(b: PortBlock, pin: uint8, mode: uint8, r: Reg)
    requires pin < 8
    ensures Get(SetPinModeBlock(b, pin, mode), r) == ModeRegValue(Get(b, r), r, pin, mode)
  {
    if r == PCTL {
      ModePctlReg(b, pin, mode);
    } else if ClearsBit(mode, r) {
      ModeClearsBit(b, pin, mode, r);
    } else if SetsBit(mode, r) {
      ModeSetsBit(b, pin, mode, r);
    } else {
      ModeKeepsReg(b, pin, mode, r);
    }
  }

  /** The one-bit-per-pin registers in which the dispatch for Mode clears, or sets, the pin's bit. */
  predicate ClearsBit(mode: uint8, r: Reg) {
    ModeBitWrite(mode, r) == Some(false)
  }

  predicate SetsBit(mode: uint8, r: Reg) {
    ModeBitWrite(mode, r) == Some(true)
  }

  lemma ModePctlReg(b: PortBlock, pin: uint8, mode: uint8)
    requires pin < 8
    ensures Get(SetPinModeBlock(b, pin, mode), PCTL) == ModeRegValue(Get(b, PCTL), PCTL, pin, mode)
  {
    if mode == PORT_DIO_MODE || mode == PORT_ALTERNATE_FUNCTION_ADC_MODE {
      DigitalOrAdcPctl(b, pin, mode);
    } else {
      AltPctl(b, pin, mode);
    }
  }

  /** The read-modify-write steps of the dispatch, one register at a time. */
  lemma ModeClearsBit(b: PortBlock, pin: uint8, mode: uint8, r: Reg)
    requires pin < 8 && ClearsBit(mode, r)
    ensures Get(SetPinModeBlock(b, pin, mode), r) == ClearBit(Get(b, r), pin) == ModeRegValue(Get(b, r), r, pin, mode)
  {
    var b1 := SetPinModeBlock(b, pin, mode);
    if mode == PORT_DIO_MODE {
      var c1 := ClearRegBit(b, AMSEL, pin);
      var c2 := ClearRegBit(c1, AFSEL, pin);
      assert b1 == SetRegBit(AndReg(c2, PCTL, !NibbleMask(pin)), DEN, pin);
      assert Get(b1, r) == Get(c2, r);
    } else if mode == PORT_ALTERNATE_FUNCTION_ADC_MODE {
      var c1 := ClearRegBit(b, DEN, pin);
      var c2 := ClearRegBit(c1, AFSEL, pin);
      assert b1 == SetRegBit(AndReg(c2, PCTL, !NibbleMask(pin)), AMSEL, pin);
      assert Get(b1, r) == Get(c2, r);
    } else {
      var c1 := ClearRegBit(b, AMSEL, pin);
      assert b1 == SetRegBit(MergeFunction(SetRegBit(c1, AFSEL, pin), pin, mode), DEN, pin);
      assert Get(b1, r) == Get(c1, r);
    }
  }

  lemma ModeSetsBit(b: PortBlock, pin: uint8, mode: uint8, r: Reg)
    requires pin < 8 && SetsBit(mode, r)
    ensures Get(SetPinModeBlock(b, pin, mode), r) == SetBit(Get(b, r), pin) == ModeRegValue(Get(b, r), r, pin, mode)
  {
  }

  lemma ModeKeepsReg(b: PortBlock, pin: uint8, mode: uint8, r: Reg)
    requires pin < 8 && r != PCTL && ModeBitWrite(mode, r).None?
    ensures Get(SetPinModeBlock(b, pin, mode), r) == Get(b, r) == ModeRegValue(Get(b, r), r, pin, mode)
  {
  }

  lemma AndTwice(x: bv32, m: bv32)
    ensures (x & m) & m == x & m
  {
  }

  lemma OrTwice(x: bv32, m: bv32)
    ensures (x | m) | m == x | m
  {
  }

  /** Each register's write is idempotent. */
  lemma ModeRegValueTwice(x: bv32, r: Reg, pin: uint8, mode: uint8)
    requires pin < 8
    ensures ModeRegValue(ModeRegValue(x, r, pin, mode), r, pin, mode) == ModeRegValue(x, r, pin, mode)
  {
    var dio := mode == PORT_DIO_MODE;
    var adc := mode == PORT_ALTERNATE_FUNCTION_ADC_MODE;
    if r == PCTL {
      if dio || adc {
        AndTwice(x, !NibbleMask(pin));
      } else {
        OrTwice(x, (mode as bv32) & NibbleMask(pin));
      }
    } else if (dio && (r == AMSEL || r == AFSEL)) || (adc && (r == DEN || r == AFSEL)) || (!dio && !adc && r == AMSEL) {
      ClearBitTwice(x, pin);
    } else if (dio && r == DEN) || (adc && r == AMSEL) || (!dio && !adc && (r == AFSEL || r == DEN)) {
      SetBitTwice(x, pin);
    }
  }

  /** The mode dispatch applied twice leaves what it leaves once. */
  lemma SetPinModeBlockTwice(b: PortBlock, pin: uint8, mode: uint8)
    requires pin < 8
    ensures SetPinModeBlock(SetPinModeBlock(b, pin, mode), pin, mode) == SetPinModeBlock(b, pin, mode)
  {
    var b1 := SetPinModeBlock(b, pin, mode);
    var b2 := SetPinModeBlock(b1, pin, mode);
    forall r: Reg
      ensures Get(b2, r) == Get(b1, r)
    {
      SetPinModeBlockReg(b, pin, mode, r);
      SetPinModeBlockReg(b1, pin, mode, r);
      ModeRegValueTwice(Get(b, r), r, pin, mode);
    }
    assert forall i :: 0 <= i < 10 ==> b2[i] == Get(b2, i as Reg);
  }

  // ------------------------------------------------------------ driver state

  /** Without a readable descriptor, or for PC0..PC3, the call only reports its errors. */
  lemma SetPinModeWithoutWrites(s: PortState, pin: uint8, mode: uint8)
    requires WellFormed(s)
    requires !PinReadable(s, pin) || IsJtagPinInSetPinMode(PinEntry(s, pin))
    ensures SetPinModeSpec(s, pin, mode) == Report(s, SetPinModeErrors(s, pin, mode))
  {
  }

  /** Otherwise the dispatch replaces the block of the pin's port. */
  lemma SetPinModeGpio(s: PortState, pin: uint8, mode: uint8)
    requires WellFormed(s) && PinReadable(s, pin) && !IsJtagPinInSetPinMode(PinEntry(s, pin))
    ensures var pc := PinEntry(s, pin);
            SetPinModeSpec(s, pin, mode).gpio == s.gpio[pc.portNum := SetPinModeBlock(s.gpio[pc.portNum], pc.pinNum, mode)]
  {
  }

  /** Otherwise the mode dispatch runs, whatever errors were reported: it
      writes only the registers of the pin's port, each as ModeRegValue says,
      and appends the errors to the Det log; no other global changes. */
  lemma SetPinModeWrites(s: PortState, pin: uint8, mode: uint8, p: uint8, r: Reg)
    requires WellFormed(s) && PinReadable(s, pin) && !IsJtagPinInSetPinMode(PinEntry(s, pin))
    requires p < 6
    ensures var t := SetPinModeSpec(s, pin, mode);
            t.status == s.status && t.jtagFlag == s.jtagFlag && t.configPtr == s.configPtr &&
            t.rcgc2 == s.rcgc2 && t.det == s.det + SetPinModeErrors(s, pin, mode)
    ensures var t := SetPinModeSpec(s, pin, mode);
            var pc := PinEntry(s, pin);
            Get(t.gpio[p], r) == if p == pc.portNum then ModeRegValue(Get(s.gpio[p], r), r, pc.pinNum, mode)
                                 else Get(s.gpio[p], r)
  {
    var pc := PinEntry(s, pin);
    SetPinModeGpio(s, pin, mode);
    if p == pc.portNum {
      SetPinModeBlockReg(s.gpio[p], pc.pinNum, mode, r);
    }
  }

  /** The same, bit by bit: bit q of a one-bit-per-pin register of port p. */
  lemma SetPinModeWritesBit(s: PortState, pin: uint8, mode: uint8, p: uint8, r: Reg, q: uint8)
    requires WellFormed(s) && PinReadable(s, pin) && !IsJtagPinInSetPinMode(PinEntry(s, pin))
    requires p < 6 && PerPin(r) && q < 32
    ensures var t := SetPinModeSpec(s, pin, mode);
            var pc := PinEntry(s, pin);
            BitIsSet(Get(t.gpio[p], r), q)
            == if p == pc.portNum then Written(ModeBitWrite(mode, r), q == pc.pinNum, BitIsSet(Get(s.gpio[p], r), q))
               else BitIsSet(Get(s.gpio[p], r), q)
  {
    var pc := PinEntry(s, pin);
    SetPinModeGpio(s, pin, mode);
    if p == pc.portNum {
      SetPinModeBlockBit(s.gpio[p], pc.pinNum, mode, r, q);
    }
  }

  /** An ADC request on an initialized driver is reported as an invalid mode
      and still switches the pin to its analog function. */
  lemma AdcModeReportedAndApplied(s: PortState, pin: uint8)
    requires WellFormed(s) && PinReadable(s, pin) && !IsJtagPinInSetPinMode(PinEntry(s, pin))
    ensures var t := SetPinModeSpec(s, pin, PORT_ALTERNATE_FUNCTION_ADC_MODE);
            var pc := PinEntry(s, pin);
            PortError(Port_Set_Pin_Mode_SID, PORT_E_PARAM_INVALID_MODE) in t.det[|s.det|..] &&
            BitIsSet(Get(t.gpio[pc.portNum], AMSEL), pc.pinNum) &&
            !BitIsSet(Get(t.gpio[pc.portNum], DEN), pc.pinNum) &&
            !BitIsSet(Get(t.gpio[pc.portNum], AFSEL), pc.pinNum)
  {
    var pc := PinEntry(s, pin);
    var t := SetPinModeSpec(s, pin, PORT_ALTERNATE_FUNCTION_ADC_MODE);
    SetPinModeErrorCases(s, pin, PORT_ALTERNATE_FUNCTION_ADC_MODE);
    SetPinModeWrites(s, pin, PORT_ALTERNATE_FUNCTION_ADC_MODE, pc.portNum, AMSEL);
    assert t.det[|s.det|..] == SetPinModeErrors(s, pin, PORT_ALTERNATE_FUNCTION_ADC_MODE);
    SetPinModeWritesBit(s, pin, PORT_ALTERNATE_FUNCTION_ADC_MODE, pc.portNum, AMSEL, pc.pinNum);
    SetPinModeWritesBit(s, pin, PORT_ALTERNATE_FUNCTION_ADC_MODE, pc.portNum, DEN, pc.pinNum);
    SetPinModeWritesBit(s, pin, PORT_ALTERNATE_FUNCTION_ADC_MODE, pc.portNum, AFSEL, pc.pinNum);
  }

  /** Repeating the call with the same arguments reports the same errors again
      and changes nothing else. */
  lemma SetPinModeIdempotent(s: PortState, pin: uint8, mode: uint8)
    requires WellFormed(s)
    ensures var t := SetPinModeSpec(s, pin, mode);
            WellFormed(t) && SetPinModeSpec(t, pin, mode) == Report(t, SetPinModeErrors(s, pin, mode))
  {
    var t := SetPinModeSpec(s, pin, mode);
    var errors := SetPinModeErrors(s, pin, mode);
    SetPinModeWellFormed(s, pin, mode);
    assert SetPinModeErrors(t, pin, mode) == errors;
    if !PinReadable(s, pin) || IsJtagPinInSetPinMode(PinEntry(s, pin)) {
      SetPinModeWithoutWrites(s, pin, mode);
      SetPinModeWithoutWrites(t, pin, mode);
    } else {
      var pc := PinEntry(s, pin);
      var b1 := SetPinModeBlock(s.gpio[pc.portNum], pc.pinNum, mode);
      assert t == Report(s, errors).(gpio := s.gpio[pc.portNum := b1]);
      SetPinModeBlockTwice(s.gpio[pc.portNum], pc.pinNum, mode);
      assert t.gpio[pc.portNum := b1] == t.gpio;
    }
  }
}
