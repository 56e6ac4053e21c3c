/*
 * The Port driver of Port.c as an object: its fields are the module globals
 * (Port_Status, JTAG_flag, Port_ConfigPtr), the registers the driver writes
 * (the six GPIO blocks and SYSCTL_RCGC2) and the log of the Det sink. Each
 * service performs the source's read-modify-write sequence one register at a
 * time and is proved to end in the state that PortSpec gives for it.
 */
module Port {
  import opened PortTypes
  import opened PortCfg
  import opened PortRegs
  import opened PortSpec
  import PortProofs

  class PortDriver {
    var portStatus: uint8
    var jtagFlag: uint8
    var portConfigPtr: Option<ConfigType>
    var rcgc2: bv32
    var gpio: seq<PortBlock>
    var detLog: seq<DetEvent>

    function State(): PortState
      reads this
    {
      PortState(portStatus, jtagFlag, portConfigPtr, rcgc2, gpio, detLog)
    }

    ghost predicate Valid()
      reads this
    {
      WellFormed(State())
    }

    /** The driver at reset; the registers hold whatever the hardware starts with. */
    constructor (resetGpio: seq<PortBlock>, resetRcgc2: bv32)
      requires |resetGpio| == 6
      ensures Valid()
      ensures State() == ResetState(resetGpio, resetRcgc2)
    {
      portStatus := PORT_NOT_INITIALIZED;
      jtagFlag := STD_LOW;
      portConfigPtr := None;
      rcgc2 := resetRcgc2;
      gpio := resetGpio;
      detLog := [];
    }

    /** Det_ReportError(PORT_MODULE_ID, PORT_INSTANCE_ID, sid, code). */
    method DetReportError(sid: uint8, code: uint8)
      modifies this`detLog
      ensures detLog == old(detLog) + [PortError(sid, code)]
    {
      detLog := detLog + [PortError(sid, code)];
    }

    /** The clock gating step of Port_Init's loop; the settling read
        `delay = SYSCTL_REGCGC2_REG` that follows it changes nothing. */
    method EnablePortClock(port: uint8)
      requires port < 6
      modifies this`rcgc2
      ensures State() == WithClock(old(State()), port)
    {
      rcgc2 := SetBit(rcgc2, port);
    }

    /** The unlock test of Port_Init's loop and the JTAG test that follows it. */
    method UnlockOrMarkJtag(pc: PinConfig)
      requires |gpio| == 6 && pc.Valid()
      modifies this`jtagFlag
      ensures State() == WithUnlockOrJtag(old(State()), pc)
    {
      if IsUnlockPinAsWritten(pc) {
        // Port_Num is compared with two different constants: the GPIOLOCK and
        // GPIOCR writes of this branch are unreachable
        assert false;
      } else if IsJtagPin(pc) {
        jtagFlag := STD_HIGH;
      }
    }

    /** The digital I/O branch of Port_Init's mode dispatch. */
    method ConfigureDio(pc: PinConfig)
      requires |gpio| == 6 && pc.Valid()
      modifies this`gpio
      ensures gpio == old(gpio)[pc.portNum as int := InitDioBlock(old(gpio)[pc.portNum as int], pc)]
    {
      var port, pin := pc.portNum, pc.pinNum;
      var b := gpio[port];
      b := ClearRegBit(b, AMSEL, pin);
      b := ClearRegBit(b, AFSEL, pin);
      b := AndReg(b, PCTL, !NibbleMask(pin));
      if pc.pinDirection == PORT_PIN_OUT {
        b := SetRegBit(b, DIR, pin);
        if pc.pinInitialValue == STD_HIGH {
          b := SetRegBit(b, DATA, pin);
        } else {
          b := ClearRegBit(b, DATA, pin);
        }
      } else {
        b := ClearRegBit(b, DIR, pin);
        if pc.resistor == PULL_UP {
          b := SetRegBit(b, PUR, pin);
        } else if pc.resistor == PULL_DOWN {
          b := SetRegBit(b, PDR, pin);
        } else {
          b := ClearRegBit(b, PUR, pin);
          b := ClearRegBit(b, PDR, pin);
        }
      }
      b := SetRegBit(b, DEN, pin);
      gpio := gpio[port := b];
    }

    /** The analog (ADC) branch of Port_Init's mode dispatch. */
    method ConfigureAdc(pc: PinConfig)
      requires |gpio| == 6 && pc.Valid()
      modifies this`gpio
      ensures gpio == old(gpio)[pc.portNum as int := InitAdcBlock(old(gpio)[pc.portNum as int], pc)]
    {
      var port, pin := pc.portNum, pc.pinNum;
      var b := gpio[port];
      b := ClearRegBit(b, DEN, pin);
      if pc.pinDirection == PORT_PIN_OUT {
        b := SetRegBit(b, DIR, pin);
      } else {
        b := SetRegBit(b, DIR, pin);
      }
      b := SetRegBit(b, AMSEL, pin);
      gpio := gpio[port := b];
    }

    /** The alternate-function branch of Port_Init's mode dispatch. */
    method ConfigureAlternate(pc: PinConfig)
      requires |gpio| == 6 && pc.Valid()
      modifies this`gpio
      ensures gpio == old(gpio)[pc.portNum as int := InitAltBlock(old(gpio)[pc.portNum as int], pc)]
    {
      var port, pin := pc.portNum, pc.pinNum;
      var b := gpio[port];
      b := ClearRegBit(b, AMSEL, pin);
      b := SetRegBit(b, AFSEL, pin);
      b := AndReg(b, PCTL, !NibbleMask(pin));
      b := OrReg(b, PCTL, (pc.pinMode as bv32) << (4 * (pin as bv32)));
      b := SetRegBit(b, DEN, pin);
      gpio := gpio[port := b];
    }

    /** The mode dispatch in the loop body of Port_Init. */
    method ConfigurePinMode(pc: PinConfig)
      requires |gpio| == 6 && pc.Valid()
      modifies this`gpio
      ensures State() == WithInitMode(old(State()), pc)
    {
      if pc.pinMode == PORT_DIO_MODE {
        ConfigureDio(pc);
      } else if pc.pinMode == PORT_ALTERNATE_FUNCTION_ADC_MODE {
        ConfigureAdc(pc);
      } else if PORT_DIO_MODE < pc.pinMode < PORT_ALTERNATE_FUNCTION_ADC_MODE {
        ConfigureAlternate(pc);
      }
    }

    /** One iteration of Port_Init's loop. */
    method ConfigurePin(pc: PinConfig)
      requires |gpio| == 6 && pc.Valid()
      modifies this
      ensures State() == InitPin(old(State()), pc)
    {
      EnablePortClock(pc.portNum);
      UnlockOrMarkJtag(pc);
      ConfigurePinMode(pc);
    }

    /** The loop of Port_Init over the PORT_CONFIGURED_PINS descriptors. */
    method ConfigureAll(pins: seq<PinConfig>)
      requires |gpio| == 6 && AllValid(pins) && |pins| == PORT_CONFIGURED_PINS
      modifies this
      ensures State() == InitLoop(old(State()), pins, |pins|)
    {
      ghost var s0 := State();
      var index := 0;
      // the loop bound PORT_CONFIGURED_PINS, which is |pins| for a valid configuration
      while index < |pins|
        invariant 0 <= index <= |pins|
        invariant |gpio| == 6
        invariant State() == InitLoop(s0, pins, index)
      {
        ConfigurePin(pins[index]);
        index := index + 1;
      }
    }

    /** Port_Init(ConfigPtr); None is the null pointer. */
    method Init(configPtr: Option<ConfigType>)
      requires Valid()
      requires configPtr.Some? ==> configPtr.value.Valid()
      modifies this
      ensures Valid()
      ensures State() == InitSpec(old(State()), configPtr)
    {
      PortProofs.InitWellFormed(State(), configPtr);
      if configPtr.None? {
        DetReportError(Port_Init_SID, PORT_E_PARAM_CONFIG);
      }
      portStatus := PORT_INITIALIZED;
      portConfigPtr := configPtr;
      if configPtr.None? {
        // the loop would dereference the null pointer
        return;
      }
      ConfigureAll(configPtr.value.pins);
    }

    /** CLEAR_BIT or SET_BIT on bit `bit` of GPIODIR of port `port`. */
    method WriteDirection(port: uint8, bit: uint8, direction: PinDirection)
      requires |gpio| == 6 && port < 6 && bit < 32
      modifies this`gpio
      ensures State() == WithDirection(old(State()), port, bit, direction)
    {
      match direction
      case PORT_PIN_IN => gpio := gpio[port := ClearRegBit(gpio[port], DIR, bit)];
      case PORT_PIN_OUT => gpio := gpio[port := SetRegBit(gpio[port], DIR, bit)];
    }

    /** The error-free path of Port_SetPinDirection. */
    method ApplyPinDirection(pc: PinConfig, pin: uint8, direction: PinDirection)
      requires |gpio| == 6 && pc.Valid() && (pin < 32 || IsJtagPin(pc))
      modifies this
      ensures State() == WithPinDirection(old(State()), pc, pin, direction)
    {
      portStatus := PORT_INITIALIZED;
      if IsJtagPin(pc) {
        jtagFlag := STD_HIGH;
      } else {
        WriteDirection(pc.portNum, pin, direction);
      }
    }

    /** The development error checks of Port_SetPinDirection; error is the
        source's local flag. */
    method CheckSetPinDirection(pin: uint8) returns (error: bool)
      requires Valid()
      modifies this`detLog
      ensures State() == Report(old(State()), SetPinDirectionErrors(old(State()), pin))
      ensures error == (SetPinDirectionErrors(old(State()), pin) != [])
    {
      error := false;
      if portStatus == PORT_NOT_INITIALIZED {
        DetReportError(Port_Set_Pin_Direction_SID, PORT_E_UNINIT);
        error := true;
      }
      if pin as int >= PORT_CONFIGURED_PINS {
        DetReportError(Port_Init_SID, PORT_E_PARAM_PIN);
        error := true;
      }
      if portConfigPtr.Some? && (pin as int) < PORT_CONFIGURED_PINS {
        if portConfigPtr.value.pins[pin].pinDirectionChange == Pin_direction_changeable_OFF {
          DetReportError(Port_Init_SID, PORT_E_DIRECTION_UNCHANGEABLE);
          error := true;
        }
      }
    }

    /** Port_SetPinDirection(Pin, Direction). */
    method SetPinDirection(pin: uint8, direction: PinDirection)
      requires Valid() && SetPinDirectionDefined(State(), pin)
      modifies this
      ensures Valid()
      ensures State() == SetPinDirectionSpec(old(State()), pin, direction)
    {
      var error := CheckSetPinDirection(pin);
      if portConfigPtr.None? || pin as int >= PORT_CONFIGURED_PINS {
        // the changeability test dereferenced null or read past the table
        PortProofs.SetPinDirectionWellFormed(old(State()), pin, direction);
        return;
      }
      if !error {
        ApplyPinDirection(portConfigPtr.value.pins[pin], pin, direction);
      }
      PortProofs.SetPinDirectionWellFormed(old(State()), pin, direction);
    }

    /** One iteration of Port_RefreshPortDirection's loop. */
    method RefreshPin(pc: PinConfig)
      requires |gpio| == 6 && pc.Valid()
      modifies this`gpio, this`jtagFlag
      ensures State() == PortSpec.RefreshPin(old(State()), pc)
    {
      if IsJtagPin(pc) {
        jtagFlag := STD_HIGH;
      }
      if jtagFlag == STD_LOW {
        if pc.pinDirectionChange.Value() == STD_OFF {
          WriteDirection(pc.portNum, pc.pinNum, pc.pinDirection);
        }
      }
    }

    /** Port_RefreshPortDirection(). */
    method RefreshPortDirection()
      requires Valid()
      modifies this
      ensures Valid()
      ensures State() == RefreshSpec(old(State()))
    {
      if portStatus == PORT_NOT_INITIALIZED {
        DetReportError(Port_Refresh_Port_Direction_SID, PORT_E_UNINIT);
      }
      if portConfigPtr.None? {
        // the loop below would dereference the null pointer
        PortProofs.RefreshWellFormed(old(State()));
        return;
      }
      var pins := portConfigPtr.value.pins;
      ghost var s0 := State();
      var index := 0;
      // the loop bound PORT_CONFIGURED_PINS, which is |pins| for a valid configuration
      while index < |pins|
        invariant 0 <= index <= |pins|
        invariant |gpio| == 6
        invariant State() == RefreshLoop(s0, pins, index)
      {
        RefreshPin(pins[index]);
        index := index + 1;
      }
      PortProofs.RefreshWellFormed(old(State()));
    }

    /** The mode dispatch of Port_SetPinMode on the pin's port. */
    method ApplyPinMode(pc: PinConfig, mode: uint8)
      requires |gpio| == 6 && pc.Valid()
      modifies this`gpio
      ensures State() == WithPinMode(old(State()), pc, mode)
    {
      var port, pin := pc.portNum, pc.pinNum;
      var b := gpio[port];
      if mode == PORT_DIO_MODE {
        b := ClearRegBit(b, AMSEL, pin);
        b := ClearRegBit(b, AFSEL, pin);
        b := AndReg(b, PCTL, !NibbleMask(pin));
        b := SetRegBit(b, DEN, pin);
      } else if mode == PORT_ALTERNATE_FUNCTION_ADC_MODE {
        b := ClearRegBit(b, DEN, pin);
        b := ClearRegBit(b, AFSEL, pin);
        b := AndReg(b, PCTL, !NibbleMask(pin));
        b := SetRegBit(b, AMSEL, pin);
      } else {
        b := ClearRegBit(b, AMSEL, pin);
        b := SetRegBit(b, AFSEL, pin);
        b := OrReg(b, PCTL, (mode as bv32) & NibbleMask(pin));
        b := SetRegBit(b, DEN, pin);
      }
      gpio := gpio[port := b];
    }

    /** The development error checks of Port_SetPinMode. */
    method CheckSetPinMode(pin: uint8, mode: uint8)
      requires Valid()
      modifies this`detLog
      ensures State() == Report(old(State()), SetPinModeErrors(old(State()), pin, mode))
    {
      ghost var reported: seq<DetEvent> := [];
      if portStatus == PORT_NOT_INITIALIZED {
        DetReportError(Port_Set_Pin_Mode_SID, PORT_E_UNINIT);
        reported := reported + [PortError(Port_Set_Pin_Mode_SID, PORT_E_UNINIT)];
      }
      if pin as int >= PORT_CONFIGURED_PINS {
        DetReportError(Port_Set_Pin_Mode_SID, PORT_E_PARAM_PIN);
        reported := reported + [PortError(Port_Set_Pin_Mode_SID, PORT_E_PARAM_PIN)];
      }
      if mode > PORT_DIO_MODE {
        DetReportError(Port_Set_Pin_Mode_SID, PORT_E_PARAM_INVALID_MODE);
        reported := reported + [PortError(Port_Set_Pin_Mode_SID, PORT_E_PARAM_INVALID_MODE)];
      }
      assert detLog == old(detLog) + reported;
      if portConfigPtr.Some? && (pin as int) < PORT_CONFIGURED_PINS {
        if portConfigPtr.value.pins[pin].pinModeChange.Value() == STD_OFF {
          DetReportError(Port_Set_Pin_Mode_SID, PORT_E_MODE_UNCHANGEABLE);
          reported := reported + [PortError(Port_Set_Pin_Mode_SID, PORT_E_MODE_UNCHANGEABLE)];
        }
      }
      assert reported == SetPinModeErrors(old(State()), pin, mode);
    }

    /** Port_SetPinMode(Pin, Mode). */
    method SetPinMode(pin: uint8, mode: uint8)
      requires Valid()
      modifies this
      ensures Valid()
      ensures State() == SetPinModeSpec(old(State()), pin, mode)
    {
      CheckSetPinMode(pin, mode);
      if portConfigPtr.None? || pin as int >= PORT_CONFIGURED_PINS {
        // the changeability test dereferenced null or read past the table
        PortProofs.SetPinModeWellFormed(old(State()), pin, mode);
        return;
      }
      var pc := portConfigPtr.value.pins[pin];
      if pc.portNum == 2 && pc.pinNum <= 3 {
        // PC0..PC3, the JTAG pins
        PortProofs.SetPinModeWellFormed(old(State()), pin, mode);
        return;
      }
      ApplyPinMode(pc, mode);
      PortProofs.SetPinModeWellFormed(old(State()), pin, mode);
    }

    /** Port_GetVersionInfo(versioninfo); hasDestination is false for a null pointer,
        in which case nothing is copied. */
    method GetVersionInfo(hasDestination: bool) returns (versioninfo: Option<VersionInfo>)
      requires Valid()
      modifies this`detLog
      ensures Valid()
      ensures detLog == old(detLog) + GetVersionInfoErrors(old(State()), hasDestination)
      ensures versioninfo == if hasDestination then Some(ThisVersion()) else None
    {
      if !hasDestination {
        DetReportError(Port_Get_Version_Info_SID, PORT_E_PARAM_POINTER);
      }
      if portStatus == PORT_NOT_INITIALIZED {
        DetReportError(Port_Get_Version_Info_SID, PORT_E_UNINIT);
      }
      if hasDestination {
        versioninfo := Some(ThisVersion());
      } else {
        // the copy would dereference the null pointer
        versioninfo := None;
      }
    }
  }
}
