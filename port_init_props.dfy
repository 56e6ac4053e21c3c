/*
 * What Port_Init does to the hardware, stated against reference tables: for
 * each configured pin, the value it leaves in every one-bit-per-pin register
 * and in the pin's GPIOPCTL field, and that no other pin is touched.
 */
module PortInitProperties {
  import opened PortTypes
  import opened PortCfg
  import opened PortRegs
  import opened PortSpec
  import opened PortProofs

  // ------------------------------------------------------ reference tables

  /** The value Port_Init stores in bit Pin_Num of the one-bit-per-pin register
      r for descriptor pc, or None where it leaves that bit as it was. */
  function InitBitWrite(pc: PinConfig, r: Reg): Option<bool> {
    var out := pc.pinDirection == PORT_PIN_OUT;
    if pc.pinMode == PORT_DIO_MODE then
      if r == AMSEL || r == AFSEL then Some(false)
      else if r == DEN then Some(true)
      else if r == DIR then Some(out)
      else if r == DATA then (if out then Some(pc.pinInitialValue == STD_HIGH) else None)
      else if r == PUR then
        (if out || pc.resistor == PULL_DOWN then None else Some(pc.resistor == PULL_UP))
      else if r == PDR then
        (if out || pc.resistor == PULL_UP then None else Some(pc.resistor == PULL_DOWN))
      else None
    else if pc.pinMode == PORT_ALTERNATE_FUNCTION_ADC_MODE then
      // GPIODIR is set for both directions
      if r == DEN then Some(false)
      else if r == DIR || r == AMSEL then Some(true)
      else None
    else if PORT_DIO_MODE < pc.pinMode < PORT_ALTERNATE_FUNCTION_ADC_MODE then
      if r == AMSEL then Some(false)
      else if r == AFSEL || r == DEN then Some(true)
      else None
    else None
  }

  /** The value Port_Init leaves in the pin's GPIOPCTL field, or None. */
  function InitNibbleWrite(pc: PinConfig): Option<bv32> {
    if pc.pinMode == PORT_DIO_MODE then Some(0)
    else if PORT_DIO_MODE < pc.pinMode < PORT_ALTERNATE_FUNCTION_ADC_MODE then Some(pc.pinMode as bv32)
    else None
  }

  /** A bit after a write table entry w, where `here` says whether it is the written bit. */
  function Written(w: Option<bool>, here: bool, before: bool): bool {
    if here && w.Some? then w.value else before
  }

  // ------------------------------------------------------ one register block

  lemma DigitalSelectBit(b: PortBlock, pin: uint8, r: Reg, q: uint8)
    requires pin < 8 && PerPin(r) && q < 32
    ensures BitIsSet(Get(DigitalSelect(b, pin), r), q)
            == if q == pin && (r == AMSEL || r == AFSEL) then false else BitIsSet(Get(b, r), q)
  {
    var b1 := ClearRegBit(b, AMSEL, pin);
    BitAfterClearRegBit(b, AMSEL, pin, r, q);
    BitAfterClearRegBit(b1, AFSEL, pin, r, q);
  }

  lemma DioOutputBit(b: PortBlock, pin: uint8, initial: uint8, r: Reg, q: uint8)
    requires pin < 8 && q < 32
    ensures BitIsSet(Get(DioOutput(b, pin, initial), r), q)
            == if q == pin && r == DIR then true
               else if q == pin && r == DATA then initial == STD_HIGH
               else BitIsSet(Get(b, r), q)
  {
    var c := SetRegBit(b, DIR, pin);
    BitAfterSetRegBit(b, DIR, pin, r, q);
    if initial == STD_HIGH {
      BitAfterSetRegBit(c, DATA, pin, r, q);
    } else {
      BitAfterClearRegBit(c, DATA, pin, r, q);
    }
  }

  lemma DioInputBit(b: PortBlock, pin: uint8, resistor: InternalResistor, r: Reg, q: uint8)
    requires pin < 8 && q < 32
    ensures BitIsSet(Get(DioInput(b, pin, resistor), r), q)
            == if q == pin && r == DIR then false
               else if q == pin && r == PUR && resistor != PULL_DOWN then resistor == PULL_UP
               else if q == pin && r == PDR && resistor != PULL_UP then resistor == PULL_DOWN
               else BitIsSet(Get(b, r), q)
  {
    var c := ClearRegBit(b, DIR, pin);
    BitAfterClearRegBit(b, DIR, pin, r, q);
    match resistor
    case PULL_UP => BitAfterSetRegBit(c, PUR, pin, r, q);
    case PULL_DOWN => BitAfterSetRegBit(c, PDR, pin, r, q);
    case OFF =>
      BitAfterClearRegBit(c, PUR, pin, r, q);
      BitAfterClearRegBit(ClearRegBit(c, PUR, pin), PDR, pin, r, q);
  }

  lemma DioBlockBit(b: PortBlock, pc: PinConfig, r: Reg, q: uint8)
    requires pc.Valid() && pc.pinMode == PORT_DIO_MODE && PerPin(r) && q < 32
    ensures BitIsSet(Get(InitDioBlock(b, pc), r), q)
            == Written(InitBitWrite(pc, r), q == pc.pinNum, BitIsSet(Get(b, r), q))
  {
    var pin := pc.pinNum;
    var b1 := DigitalSelect(b, pin);
    DigitalSelectBit(b, pin, r, q);
    var b2 :=
      if pc.pinDirection == PORT_PIN_OUT then DioOutput(b1, pin, pc.pinInitialValue)
      else DioInput(b1, pin, pc.resistor);
    if pc.pinDirection == PORT_PIN_OUT {
      DioOutputBit(b1, pin, pc.pinInitialValue, r, q);
    } else {
      DioInputBit(b1, pin, pc.resistor, r, q);
    }
    BitAfterSetRegBit(b2, DEN, pin, r, q);
  }

  lemma AdcBlockBit(b: PortBlock, pc: PinConfig, r: Reg, q: uint8)
    requires pc.Valid() && pc.pinMode == PORT_ALTERNATE_FUNCTION_ADC_MODE && PerPin(r) && q < 32
    ensures BitIsSet(Get(InitAdcBlock(b, pc), r), q)
            == Written(InitBitWrite(pc, r), q == pc.pinNum, BitIsSet(Get(b, r), q))
  {
    var pin := pc.pinNum;
    var b1 := ClearRegBit(b, DEN, pin);
    BitAfterClearRegBit(b, DEN, pin, r, q);
    var b2 := SetRegBit(b1, DIR, pin);
    BitAfterSetRegBit(b1, DIR, pin, r, q);
    BitAfterSetRegBit(b2, AMSEL, pin, r, q);
  }

  lemma AltBlockBit(b: PortBlock, pc: PinConfig, r: Reg, q: uint8)
    requires pc.Valid() && PORT_DIO_MODE < pc.pinMode < PORT_ALTERNATE_FUNCTION_ADC_MODE
    requires PerPin(r) && q < 32
    ensures BitIsSet(Get(InitAltBlock(b, pc), r), q)
            == Written(InitBitWrite(pc, r), q == pc.pinNum, BitIsSet(Get(b, r), q))
  {
    var pin := pc.pinNum;
    var b0 := ClearRegBit(b, AMSEL, pin);
    BitAfterClearRegBit(b, AMSEL, pin, r, q);
    var b1 := SetRegBit(b0, AFSEL, pin);
    BitAfterSetRegBit(b0, AFSEL, pin, r, q);
    var b2 := SelectFunction(b1, pin, pc.pinMode);
    SelectFunctionFrame(b1, pin, pc.pinMode, r);
    BitAfterSetRegBit(b2, DEN, pin, r, q);
  }

  /** Writing the PMC field changes no register but GPIOPCTL. */
  lemma SelectFunctionFrame(b: PortBlock, pin: uint8, mode: uint8, r: Reg)
    requires pin < 8 && r != PCTL
    ensures Get(SelectFunction(b, pin, mode), r) == Get(b, r)
  {
  }

  /** Bit q of a one-bit-per-pin register after Port_Init's mode dispatch. */
  lemma InitModeBlockBit(b: PortBlock, pc: PinConfig, r: Reg, q: uint8)
    requires pc.Valid() && PerPin(r) && q < 32
    ensures BitIsSet(Get(InitModeBlock(b, pc), r), q)
            == Written(InitBitWrite(pc, r), q == pc.pinNum, BitIsSet(Get(b, r), q))
  {
    if pc.pinMode == PORT_DIO_MODE {
      DioBlockBit(b, pc, r, q);
    } else if pc.pinMode == PORT_ALTERNATE_FUNCTION_ADC_MODE {
      AdcBlockBit(b, pc, r, q);
    } else if PORT_DIO_MODE < pc.pinMode < PORT_ALTERNATE_FUNCTION_ADC_MODE {
      AltBlockBit(b, pc, r, q);
    }
  }

  /** The PMC field written by SelectFunction holds the mode; the other fields keep their values. */
  lemma SelectFunctionNibble(b: PortBlock, pin: uint8, mode: uint8, k: uint8)
    requires pin < 8 && k < 8 && mode < 16
    ensures Nibble(Get(SelectFunction(b, pin, mode), PCTL), k)
            == if k == pin then mode as bv32 else Nibble(Get(b, PCTL), k)
  {
    SetNibbleAt(Get(b, PCTL), mode, pin, k);
  }

  lemma DigitalSelectPctl(b: PortBlock, pin: uint8)
    requires pin < 8
    ensures Get(DigitalSelect(b, pin), PCTL) == Get(b, PCTL) & !NibbleMask(pin)
  {
  }

  lemma DioOutputFrame(b: PortBlock, pin: uint8, initial: uint8, r: Reg)
    requires pin < 8 && r != DIR && r != DATA
    ensures Get(DioOutput(b, pin, initial), r) == Get(b, r)
  {
  }

  lemma DioInputFrame(b: PortBlock, pin: uint8, resistor: InternalResistor, r: Reg)
    requires pin < 8 && r != DIR && r != PUR && r != PDR
    ensures Get(DioInput(b, pin, resistor), r) == Get(b, r)
  {
  }

  lemma DioBlockPctl(b: PortBlock, pc: PinConfig)
    requires pc.Valid() && pc.pinMode == PORT_DIO_MODE
    ensures Get(InitDioBlock(b, pc), PCTL) == Get(DigitalSelect(b, pc.pinNum), PCTL)
  {
    var pin := pc.pinNum;
    var b1 := DigitalSelect(b, pin);
    if pc.pinDirection == PORT_PIN_OUT {
      DioOutputFrame(b1, pin, pc.pinInitialValue, PCTL);
    } else {
      DioInputFrame(b1, pin, pc.resistor, PCTL);
    }
  }

  lemma AltBlockPctl(b: PortBlock, pc: PinConfig)
    requires pc.Valid() && PORT_DIO_MODE < pc.pinMode < PORT_ALTERNATE_FUNCTION_ADC_MODE
    ensures Get(InitAltBlock(b, pc), PCTL)
            == Get(SelectFunction(SetRegBit(ClearRegBit(b, AMSEL, pc.pinNum), AFSEL, pc.pinNum), pc.pinNum, pc.pinMode), PCTL)
  {
  }

  lemma DioBlockNibble(b: PortBlock, pc: PinConfig, k: uint8)
    requires pc.Valid() && pc.pinMode == PORT_DIO_MODE && k < 8
    ensures Nibble(Get(InitDioBlock(b, pc), PCTL), k) == if k == pc.pinNum then 0 else Nibble(Get(b, PCTL), k)
  {
    DioBlockPctl(b, pc);
    DigitalSelectPctl(b, pc.pinNum);
    ClearedNibble(Get(b, PCTL), Get(InitDioBlock(b, pc), PCTL), pc.pinNum, k);
  }

  lemma AltBlockNibble(b: PortBlock, pc: PinConfig, k: uint8)
    requires pc.Valid() && PORT_DIO_MODE < pc.pinMode < PORT_ALTERNATE_FUNCTION_ADC_MODE && k < 8
    ensures Nibble(Get(InitAltBlock(b, pc), PCTL), k) == if k == pc.pinNum then pc.pinMode as bv32 else Nibble(Get(b, PCTL), k)
  {
    var pin := pc.pinNum;
    var b1 := SetRegBit(ClearRegBit(b, AMSEL, pin), AFSEL, pin);
    AltBlockPctl(b, pc);
    SelectFunctionNibble(b1, pin, pc.pinMode, k);
  }

  /** The PMCk field of GPIOPCTL after Port_Init's mode dispatch. */
  lemma InitModeBlockNibble(b: PortBlock, pc: PinConfig, k: uint8)
    requires pc.Valid() && k < 8
    ensures Nibble(Get(InitModeBlock(b, pc), PCTL), k)
            == if k == pc.pinNum && InitNibbleWrite(pc).Some? then InitNibbleWrite(pc).value
               else Nibble(Get(b, PCTL), k)
  {
    if pc.pinMode == PORT_DIO_MODE {
      DioBlockNibble(b, pc, k);
    } else if pc.pinMode == PORT_ALTERNATE_FUNCTION_ADC_MODE {
      assert Get(InitAdcBlock(b, pc), PCTL) == Get(b, PCTL);
    } else if PORT_DIO_MODE < pc.pinMode < PORT_ALTERNATE_FUNCTION_ADC_MODE {
      AltBlockNibble(b, pc, k);
    }
  }

  /** Port_Init's mode dispatch never writes GPIOLOCK. */
  lemma InitModeBlockLock(b: PortBlock, pc: PinConfig)
    requires pc.Valid()
    ensures Get(InitModeBlock(b, pc), LOCK) == Get(b, LOCK)
  {
    if pc.pinMode == PORT_DIO_MODE {
      var b1 := DigitalSelect(b, pc.pinNum);
      if pc.pinDirection != PORT_PIN_OUT && pc.resistor == OFF {
        assert Get(DioInput(b1, pc.pinNum, pc.resistor), LOCK) == Get(b1, LOCK);
      }
    }
  }

  // ---------------------------------------------------- one loop iteration

  /** One iteration of Port_Init's loop: the pin's port clock is enabled, the
      JTAG flag is raised for PC0..PC3, and only the pin's own port block is
      reprogrammed. */
  lemma InitPinParts(s: PortState, pc: PinConfig)
    requires |s.gpio| == 6 && pc.Valid()
    ensures InitPin(s, pc).gpio == s.gpio[pc.portNum as int := InitModeBlock(s.gpio[pc.portNum as int], pc)]
    ensures InitPin(s, pc).rcgc2 == SetBit(s.rcgc2, pc.portNum)
    ensures InitPin(s, pc).jtagFlag == if IsJtagPin(pc) then STD_HIGH else s.jtagFlag
    ensures InitPin(s, pc).status == s.status && InitPin(s, pc).configPtr == s.configPtr
    ensures InitPin(s, pc).det == s.det
  {
    var s2 := WithUnlockOrJtag(WithClock(s, pc.portNum), pc);
    assert s2 == s.(rcgc2 := SetBit(s.rcgc2, pc.portNum), jtagFlag := if IsJtagPin(pc) then STD_HIGH else s.jtagFlag);
  }

  /** Bit q of register r of port p after one iteration of Port_Init's loop. */
  lemma InitPinBit(s: PortState, pc: PinConfig, p: uint8, r: Reg, q: uint8)
    requires |s.gpio| == 6 && pc.Valid() && p < 6 && PerPin(r) && q < 32
    ensures BitIsSet(Get(InitPin(s, pc).gpio[p], r), q)
            == Written(InitBitWrite(pc, r), pc.portNum == p && pc.pinNum == q, BitIsSet(Get(s.gpio[p], r), q))
  {
    InitPinParts(s, pc);
    if pc.portNum == p {
      InitModeBlockBit(s.gpio[p], pc, r, q);
    }
  }

  // -------------------------------------------------------- the whole loop

  /** After the first n iterations, bit q of the one-bit-per-pin register r of
      port p holds what the descriptor naming that pin writes there, and its
      value before Port_Init where no descriptor names it or the descriptor
      leaves that bit alone. */
  lemma {:induction false} InitLoopBit(s: PortState, pins: seq<PinConfig>, n: nat, p: uint8, r: Reg, q: uint8)
    requires |s.gpio| == 6 && AllValid(pins) && DistinctPins(pins) && n <= |pins|
    requires p < 6 && PerPin(r) && q < 32
    ensures BitIsSet(Get(InitLoop(s, pins, n).gpio[p], r), q)
            == InitBitAfter(pins, n, p, r, q, BitIsSet(Get(s.gpio[p], r), q))
  {
    if n > 0 {
      var pc := pins[n - 1];
      var prev := InitLoop(s, pins, n - 1);
      assert InitLoop(s, pins, n) == InitPin(prev, pc);
      InitLoopBit(s, pins, n - 1, p, r, q);
      InitPinBit(prev, pc, p, r, q);
      InitBitAfterStep(pins, n, p, r, q, BitIsSet(Get(s.gpio[p], r), q));
    }
  }

  /** The reference value of bit q of register r of port p after the first n
      iterations: the entry of the descriptor naming that pin, if any. */
  function InitBitAfter(pins: seq<PinConfig>, n: nat, p: uint8, r: Reg, q: uint8, before: bool): bool
    requires n <= |pins|
  {
    match Named(pins, n, p, q)
    case None => before
    case Some(i) => Written(InitBitWrite(pins[i], r), true, before)
  }

  lemma InitBitAfterStep(pins: seq<PinConfig>, n: nat, p: uint8, r: Reg, q: uint8, before: bool)
    requires DistinctPins(pins) && 0 < n <= |pins|
    ensures InitBitAfter(pins, n, p, r, q, before)
            == Written(InitBitWrite(pins[n - 1], r), pins[n - 1].portNum == p && pins[n - 1].pinNum == q,
                       InitBitAfter(pins, n - 1, p, r, q, before))
  {
  }

  /** Field k of GPIOPCTL of port p after one iteration of Port_Init's loop. */
  lemma InitPinNibble(s: PortState, pc: PinConfig, p: uint8, k: uint8)
    requires |s.gpio| == 6 && pc.Valid() && p < 6 && k < 8
    ensures Nibble(Get(InitPin(s, pc).gpio[p], PCTL), k)
            == NibbleWritten(InitNibbleWrite(pc), pc.portNum == p && pc.pinNum == k, Nibble(Get(s.gpio[p], PCTL), k))
  {
    InitPinParts(s, pc);
    if pc.portNum == p {
      InitModeBlockNibble(s.gpio[p], pc, k);
    }
  }

  /** A GPIOPCTL field after a write table entry w, where `here` says whether it is the written field. */
  function NibbleWritten(w: Option<bv32>, here: bool, before: bv32): bv32 {
    if here && w.Some? then w.value else before
  }

  /** The reference value of field k of GPIOPCTL of port p after the first n iterations. */
  function InitNibbleAfter(pins: seq<PinConfig>, n: nat, p: uint8, k: uint8, before: bv32): bv32
    requires n <= |pins|
  {
    match Named(pins, n, p, k)
    case None => before
    case Some(i) => NibbleWritten(InitNibbleWrite(pins[i]), true, before)
  }

  lemma InitNibbleAfterStep(pins: seq<PinConfig>, n: nat, p: uint8, k: uint8, before: bv32)
    requires DistinctPins(pins) && 0 < n <= |pins|
    ensures InitNibbleAfter(pins, n, p, k, before)
            == NibbleWritten(InitNibbleWrite(pins[n - 1]), pins[n - 1].portNum == p && pins[n - 1].pinNum == k,
                             InitNibbleAfter(pins, n - 1, p, k, before))
  {
  }

  /** After the first n iterations, the PMCk field of GPIOPCTL of port p holds
      what the descriptor naming pin k writes there (0 for digital I/O, the
      mode for an alternate function), and its value before Port_Init otherwise. */
  lemma {:induction false} InitLoopNibble(s: PortState, pins: seq<PinConfig>, n: nat, p: uint8, k: uint8)
    requires |s.gpio| == 6 && AllValid(pins) && DistinctPins(pins) && n <= |pins|
    requires p < 6 && k < 8
    ensures Nibble(Get(InitLoop(s, pins, n).gpio[p], PCTL), k)
            == InitNibbleAfter(pins, n, p, k, Nibble(Get(s.gpio[p], PCTL), k))
  {
    if n > 0 {
      InitLoopNibble(s, pins, n - 1, p, k);
      InitPinNibble(InitLoop(s, pins, n - 1), pins[n - 1], p, k);
      InitNibbleAfterStep(pins, n, p, k, Nibble(Get(s.gpio[p], PCTL), k));
    }
  }

  /** No iteration of Port_Init's loop writes GPIOLOCK. */
  lemma {:induction false} InitLoopLock(s: PortState, pins: seq<PinConfig>, n: nat, p: uint8)
    requires |s.gpio| == 6 && AllValid(pins) && n <= |pins| && p < 6
    ensures Get(InitLoop(s, pins, n).gpio[p], LOCK) == Get(s.gpio[p], LOCK)
  {
    if n > 0 {
      var prev := InitLoop(s, pins, n - 1);
      InitLoopLock(s, pins, n - 1, p);
      InitPinParts(prev, pins[n - 1]);
      InitModeBlockLock(prev.gpio[pins[n - 1].portNum], pins[n - 1]);
    }
  }

  /** After the first n iterations, the clock of port k is enabled in
      SYSCTL_RCGC2 exactly when it was before or some descriptor is on port k. */
  lemma {:induction false} InitLoopClock(s: PortState, pins: seq<PinConfig>, n: nat, k: uint8)
    requires |s.gpio| == 6 && AllValid(pins) && n <= |pins| && k < 32
    ensures BitIsSet(InitLoop(s, pins, n).rcgc2, k)
            <==> BitIsSet(s.rcgc2, k) || exists i :: 0 <= i < n && pins[i].portNum == k
  {
    if n > 0 {
      var prev := InitLoop(s, pins, n - 1);
      InitLoopClock(s, pins, n - 1, k);
      InitPinParts(prev, pins[n - 1]);
      SetBitAt(prev.rcgc2, pins[n - 1].portNum, k);
      if pins[n - 1].portNum == k {
        assert 0 <= n - 1 < n && pins[n - 1].portNum == k;
      }
      if exists i :: 0 <= i < n && pins[i].portNum == k {
        var i :| 0 <= i < n && pins[i].portNum == k;
        if i < n - 1 {
          assert exists i :: 0 <= i < n - 1 && pins[i].portNum == k;
        }
      }
    }
  }

  /** After the first n iterations the JTAG flag is high exactly when it was
      before or one of those descriptors is a JTAG pin (PC0..PC3). */
  lemma {:induction false} InitLoopJtag(s: PortState, pins: seq<PinConfig>, n: nat)
    requires |s.gpio| == 6 && AllValid(pins) && n <= |pins|
    ensures InitLoop(s, pins, n).jtagFlag
            == if exists i :: 0 <= i < n && IsJtagPin(pins[i]) then STD_HIGH else s.jtagFlag
  {
    if n > 0 {
      var prev := InitLoop(s, pins, n - 1);
      InitLoopJtag(s, pins, n - 1);
      InitPinParts(prev, pins[n - 1]);
      if IsJtagPin(pins[n - 1]) {
        assert 0 <= n - 1 < n && IsJtagPin(pins[n - 1]);
      }
      if exists i :: 0 <= i < n && IsJtagPin(pins[i]) {
        var i :| 0 <= i < n && IsJtagPin(pins[i]);
        if i < n - 1 {
          assert exists i :: 0 <= i < n - 1 && IsJtagPin(pins[i]);
        }
      }
    }
  }

  // ---------------------------------------------------- Port_Init as a whole

  /** Port_Init always marks the driver initialized and stores the pointer it
      was given; a null pointer is reported as PORT_E_PARAM_CONFIG and no
      register is touched, a table reports nothing. */
  lemma InitSpecGlobals(s: PortState, configPtr: Option<ConfigType>)
    requires WellFormed(s)
    requires configPtr.Some? ==> configPtr.value.Valid()
    ensures InitSpec(s, configPtr).status == PORT_INITIALIZED
    ensures InitSpec(s, configPtr).configPtr == configPtr
    ensures InitSpec(s, configPtr).det
            == s.det + if configPtr.None? then [PortError(Port_Init_SID, PORT_E_PARAM_CONFIG)] else []
    ensures configPtr.None? ==> InitSpec(s, configPtr).gpio == s.gpio && InitSpec(s, configPtr).rcgc2 == s.rcgc2
    ensures configPtr.None? ==> InitSpec(s, configPtr).jtagFlag == s.jtagFlag
  {
    if configPtr.Some? {
      InitLoopFlag(s.(status := PORT_INITIALIZED, configPtr := configPtr), configPtr.value.pins, |configPtr.value.pins|);
      InitLoopDet(s.(status := PORT_INITIALIZED, configPtr := configPtr), configPtr.value.pins, |configPtr.value.pins|);
    }
  }

  lemma {:induction false} InitLoopDet(s: PortState, pins: seq<PinConfig>, n: nat)
    requires |s.gpio| == 6 && AllValid(pins) && n <= |pins|
    ensures InitLoop(s, pins, n).det == s.det
  {
    if n > 0 {
      InitLoopDet(s, pins, n - 1);
      InitPinParts(InitLoop(s, pins, n - 1), pins[n - 1]);
    }
  }

  /** Port_Init programs every configured pin as its descriptor says: bit
      Pin_Num of each one-bit-per-pin register of the pin's port holds the
      table's entry for that register, or keeps its value where the table has none. */
  lemma InitConfiguresPin(s: PortState, cfg: ConfigType, i: nat, r: Reg)
    requires WellFormed(s) && cfg.Valid() && DistinctPins(cfg.pins)
    requires i < |cfg.pins| && PerPin(r)
    ensures var pc := cfg.pins[i];
            BitIsSet(Get(InitSpec(s, Some(cfg)).gpio[pc.portNum], r), pc.pinNum)
            == Written(InitBitWrite(pc, r), true, BitIsSet(Get(s.gpio[pc.portNum], r), pc.pinNum))
  {
    var pc := cfg.pins[i];
    var s2 := s.(status := PORT_INITIALIZED, configPtr := Some(cfg));
    InitLoopBit(s2, cfg.pins, |cfg.pins|, pc.portNum, r, pc.pinNum);
    NamedUnique(cfg.pins, |cfg.pins|, i);
  }

  /** Port_Init writes the PMC field of every configured digital I/O or
      alternate-function pin: 0, or the mode number. */
  lemma InitSelectsFunction(s: PortState, cfg: ConfigType, i: nat)
    requires WellFormed(s) && cfg.Valid() && DistinctPins(cfg.pins) && i < |cfg.pins|
    ensures var pc := cfg.pins[i];
            Nibble(Get(InitSpec(s, Some(cfg)).gpio[pc.portNum], PCTL), pc.pinNum)
            == NibbleWritten(InitNibbleWrite(pc), true, Nibble(Get(s.gpio[pc.portNum], PCTL), pc.pinNum))
  {
    var pc := cfg.pins[i];
    var s2 := s.(status := PORT_INITIALIZED, configPtr := Some(cfg));
    InitLoopNibble(s2, cfg.pins, |cfg.pins|, pc.portNum, pc.pinNum);
    NamedUnique(cfg.pins, |cfg.pins|, i);
  }

  /** A pin that none of the first n descriptors names keeps every register
      bit through them, for any table. */
  lemma {:induction false} InitLoopUnnamedBit(s: PortState, pins: seq<PinConfig>, n: nat, p: uint8, r: Reg, q: uint8)
    requires |s.gpio| == 6 && AllValid(pins) && n <= |pins| && p < 6 && PerPin(r) && q < 8
    requires forall i :: 0 <= i < n ==> !(pins[i].portNum == p && pins[i].pinNum == q)
    ensures BitIsSet(Get(InitLoop(s, pins, n).gpio[p], r), q) == BitIsSet(Get(s.gpio[p], r), q)
  {
    if n > 0 {
      InitLoopUnnamedBit(s, pins, n - 1, p, r, q);
      InitPinBit(InitLoop(s, pins, n - 1), pins[n - 1], p, r, q);
    }
  }

  /** A pin that none of the first n descriptors names keeps its PMC field
      through them, for any table. */
  lemma {:induction false} InitLoopUnnamedNibble(s: PortState, pins: seq<PinConfig>, n: nat, p: uint8, q: uint8)
    requires |s.gpio| == 6 && AllValid(pins) && n <= |pins| && p < 6 && q < 8
    requires forall i :: 0 <= i < n ==> !(pins[i].portNum == p && pins[i].pinNum == q)
    ensures Nibble(Get(InitLoop(s, pins, n).gpio[p], PCTL), q) == Nibble(Get(s.gpio[p], PCTL), q)
  {
    if n > 0 {
      InitLoopUnnamedNibble(s, pins, n - 1, p, q);
      InitPinNibble(InitLoop(s, pins, n - 1), pins[n - 1], p, q);
    }
  }

  /** A pin that no descriptor names keeps every register bit and its PMC field. */
  lemma InitLeavesOtherPins(s: PortState, cfg: ConfigType, p: uint8, q: uint8, r: Reg)
    requires WellFormed(s) && cfg.Valid()
    requires p < 6 && q < 8 && PerPin(r)
    requires forall i :: 0 <= i < |cfg.pins| ==> !(cfg.pins[i].portNum == p && cfg.pins[i].pinNum == q)
    ensures BitIsSet(Get(InitSpec(s, Some(cfg)).gpio[p], r), q) == BitIsSet(Get(s.gpio[p], r), q)
    ensures Nibble(Get(InitSpec(s, Some(cfg)).gpio[p], PCTL), q) == Nibble(Get(s.gpio[p], PCTL), q)
  {
    var s2 := s.(status := PORT_INITIALIZED, configPtr := Some(cfg));
    InitLoopUnnamedBit(s2, cfg.pins, |cfg.pins|, p, r, q);
    InitLoopUnnamedNibble(s2, cfg.pins, |cfg.pins|, p, q);
  }

  /** Port_Init enables the clock of exactly the ports the table uses (and
      keeps those already enabled), never writes GPIOLOCK, and raises the JTAG
      flag exactly when the table holds one of PC0..PC3. */
  lemma InitClocksLockAndJtag(s: PortState, cfg: ConfigType, p: uint8, k: uint8)
    requires WellFormed(s) && cfg.Valid() && p < 6 && k < 32
    ensures BitIsSet(InitSpec(s, Some(cfg)).rcgc2, k)
            <==> BitIsSet(s.rcgc2, k) || exists i :: 0 <= i < |cfg.pins| && cfg.pins[i].portNum == k
    ensures Get(InitSpec(s, Some(cfg)).gpio[p], LOCK) == Get(s.gpio[p], LOCK)
    ensures InitSpec(s, Some(cfg)).jtagFlag
            == if exists i :: 0 <= i < |cfg.pins| && IsJtagPin(cfg.pins[i]) then STD_HIGH else s.jtagFlag
  {
    var s2 := s.(status := PORT_INITIALIZED, configPtr := Some(cfg));
    InitLoopClock(s2, cfg.pins, |cfg.pins|, k);
    InitLoopLock(s2, cfg.pins, |cfg.pins|, p);
    InitLoopJtag(s2, cfg.pins, |cfg.pins|);
  }

  /** The unlock test of Port_Init as written compares Port_Num with both a
      port and a pin number, so it is never true and GPIOLOCK and GPIOCR are
      never written, for PD7 and PF0 included. */
  lemma UnlockTestNeverHolds(pc: PinConfig)
    ensures !IsUnlockPinAsWritten(pc)
  {
  }
}
