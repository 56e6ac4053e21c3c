/*
 * What Port_SetPinDirection does: which development errors it reports, that
 * any of them leaves every register and global alone, that otherwise it
 * writes one GPIODIR bit (or only raises the JTAG flag for PC0..PC3), and that
 * a repeated call changes nothing more.
 */
module PortDirectionProperties {
  import opened PortTypes
  import opened PortCfg
  import opened PortRegs
  import opened PortSpec
  import opened PortProofs

  /** The call reports nothing exactly when the driver is initialized, Pin is
      below PORT_CONFIGURED_PINS and the pin's direction is changeable. */
  lemma SetPinDirectionNoErrors(s: PortState, pin: uint8)
    requires WellFormed(s)
    ensures SetPinDirectionErrors(s, pin) == []
            <==> s.status == PORT_INITIALIZED && (pin as int) < PORT_CONFIGURED_PINS &&
                 (s.configPtr.Some? ==> PinEntry(s, pin).pinDirectionChange == Pin_direction_changeable_ON)
  {
  }

  /** Each error is reported exactly when its condition holds; only
      PORT_E_UNINIT carries Port_SetPinDirection's own service ID, the other
      two carry Port_Init's. */
  lemma SetPinDirectionErrorCases(s: PortState, pin: uint8)
    requires WellFormed(s)
    ensures var errors := SetPinDirectionErrors(s, pin);
            (PortError(Port_Set_Pin_Direction_SID, PORT_E_UNINIT) in errors <==> s.status == PORT_NOT_INITIALIZED) &&
            (PortError(Port_Init_SID, PORT_E_PARAM_PIN) in errors <==> pin as int >= PORT_CONFIGURED_PINS) &&
            (PortError(Port_Init_SID, PORT_E_DIRECTION_UNCHANGEABLE) in errors <==>
               PinReadable(s, pin) && PinEntry(s, pin).pinDirectionChange == Pin_direction_changeable_OFF) &&
            (forall e :: e in errors ==> e.moduleId == PORT_MODULE_ID && e.instanceId == PORT_INSTANCE_ID) &&
            (forall e :: e in errors ==> (e.apiId == Port_Set_Pin_Direction_SID <==> e.errorId == PORT_E_UNINIT))
  {
  }

  /** On any error, or when the table cannot be read, only the Det log changes. */
  lemma SetPinDirectionOnError(s: PortState, pin: uint8, direction: PinDirection)
    requires WellFormed(s) && SetPinDirectionDefined(s, pin)
    requires SetPinDirectionErrors(s, pin) != [] || !PinReadable(s, pin)
    ensures SetPinDirectionSpec(s, pin, direction) == s.(det := s.det + SetPinDirectionErrors(s, pin))
  {
  }

  /** For PC0..PC3 an error-free call only raises the JTAG flag. */
  lemma SetPinDirectionOnJtagPin(s: PortState, pin: uint8, direction: PinDirection)
    requires WellFormed(s) && SetPinDirectionDefined(s, pin)
    requires SetPinDirectionErrors(s, pin) == [] && PinReadable(s, pin) && IsJtagPin(PinEntry(s, pin))
    ensures SetPinDirectionSpec(s, pin, direction) == s.(jtagFlag := STD_HIGH)
  {
  }

  /** Otherwise an error-free call is the GPIODIR write of WithDirection on
      bit Pin of the pin's port: no global changes and no other port or
      register is written. The bit is Pin, the index into the table, not the
      descriptor's Pin_Num. */
  lemma SetPinDirectionWritesDir(s: PortState, pin: uint8, direction: PinDirection, p: uint8, r: Reg)
    requires WellFormed(s) && SetPinDirectionDefined(s, pin)
    requires SetPinDirectionErrors(s, pin) == [] && PinReadable(s, pin) && !IsJtagPin(PinEntry(s, pin))
    requires p < 6
    ensures SetPinDirectionSpec(s, pin, direction) == WithDirection(s, PinEntry(s, pin).portNum, pin, direction)
    ensures var t := SetPinDirectionSpec(s, pin, direction);
            t.status == s.status && t.jtagFlag == s.jtagFlag && t.configPtr == s.configPtr &&
            t.rcgc2 == s.rcgc2 && t.det == s.det
    ensures var t := SetPinDirectionSpec(s, pin, direction);
            (p != PinEntry(s, pin).portNum || r != DIR ==> Get(t.gpio[p], r) == Get(s.gpio[p], r))
  {
    assert s.(status := PORT_INITIALIZED, det := s.det + SetPinDirectionErrors(s, pin)) == s;
  }

  /** Bit by bit: only bit Pin of GPIODIR of the pin's port changes, to one
      for an output and to zero for an input. */
  lemma SetPinDirectionWritesBit(s: PortState, pin: uint8, direction: PinDirection, p: uint8, r: Reg, q: uint8)
    requires WellFormed(s) && SetPinDirectionDefined(s, pin)
    requires SetPinDirectionErrors(s, pin) == [] && PinReadable(s, pin) && !IsJtagPin(PinEntry(s, pin))
    requires p < 6 && q < 32
    ensures var t := SetPinDirectionSpec(s, pin, direction);
            BitIsSet(Get(t.gpio[p], r), q)
            == if p == PinEntry(s, pin).portNum && r == DIR && q == pin then direction == PORT_PIN_OUT
               else BitIsSet(Get(s.gpio[p], r), q)
  {
    var pc := PinEntry(s, pin);
    var b := s.gpio[pc.portNum];
    SetPinDirectionWritesDir(s, pin, direction, p, r);
    if p == pc.portNum {
      if direction == PORT_PIN_OUT {
        BitAfterSetRegBit(b, DIR, pin, r, q);
      } else {
        BitAfterClearRegBit(b, DIR, pin, r, q);
      }
    }
  }

  /** SET_BIT or CLEAR_BIT of the same GPIODIR bit twice is the same as once. */
  lemma WithDirectionTwice(s: PortState, port: uint8, bit: uint8, direction: PinDirection)
    requires |s.gpio| == 6 && port < 6 && bit < 32
    ensures WithDirection(WithDirection(s, port, bit, direction), port, bit, direction)
            == WithDirection(s, port, bit, direction)
  {
    if direction == PORT_PIN_OUT {
      SetRegBitTwice(s.gpio[port], DIR, bit);
    } else {
      ClearRegBitTwice(s.gpio[port], DIR, bit);
    }
  }

  /** Repeating the call with the same arguments reports the same errors again
      and changes nothing else. */
  lemma SetPinDirectionIdempotent(s: PortState, pin: uint8, direction: PinDirection)
    requires WellFormed(s) && SetPinDirectionDefined(s, pin)
    ensures var t := SetPinDirectionSpec(s, pin, direction);
            WellFormed(t) && SetPinDirectionDefined(t, pin) &&
            SetPinDirectionSpec(t, pin, direction) == Report(t, SetPinDirectionErrors(s, pin))
  {
    var t := SetPinDirectionSpec(s, pin, direction);
    var errors := SetPinDirectionErrors(s, pin);
    SetPinDirectionWellFormed(s, pin, direction);
    if errors != [] || !PinReadable(s, pin) {
      SetPinDirectionOnError(s, pin, direction);
      assert SetPinDirectionErrors(t, pin) == errors;
      SetPinDirectionOnError(t, pin, direction);
    } else if IsJtagPin(PinEntry(s, pin)) {
      SetPinDirectionOnJtagPin(s, pin, direction);
      assert SetPinDirectionErrors(t, pin) == errors;
      SetPinDirectionOnJtagPin(t, pin, direction);
      assert t.det + [] == t.det;
    } else {
      var pc := PinEntry(s, pin);
      SetPinDirectionWritesDir(s, pin, direction, 0, DIR);
      assert SetPinDirectionErrors(t, pin) == errors;
      SetPinDirectionWritesDir(t, pin, direction, 0, DIR);
      WithDirectionTwice(s, pc.portNum, pin, direction);
      assert t.det + [] == t.det;
    }
  }
}
