/*
 * The services of Port.c as functions of the driver state: what one call of
 * Port_Init, Port_SetPinDirection, Port_RefreshPortDirection, Port_SetPinMode
 * or Port_GetVersionInfo leaves behind. The class in port_driver.dfy performs
 * the same register writes one at a time and is proved to end in these states;
 * the *_props.dfy modules prove what the source promises about them.
 *
 * Where Port.c dereferences the null configuration pointer, or reads the pin
 * table out of range, the C behaviour is undefined; these functions stop at
 * that point and keep only the effects that came before it.
 */
module PortSpec {
  import opened PortTypes
  import opened PortCfg
  import opened PortRegs

  /** The module globals Port_Status, JTAG_flag and Port_ConfigPtr, the GPIO
      register blocks of ports A..F, SYSCTL_RCGC2 and the events sent to Det. */
  datatype PortState = PortState(
    status: uint8,
    jtagFlag: uint8,
    configPtr: Option<ConfigType>,
    rcgc2: bv32,
    gpio: seq<PortBlock>,
    det: seq<DetEvent>)

  /** The states the driver can be in: six register blocks, a stored table that
      is well formed, and no table before Port_Init has run. */
  predicate WellFormed(s: PortState) {
    |s.gpio| == 6 &&
    (s.status == PORT_NOT_INITIALIZED || s.status == PORT_INITIALIZED) &&
    (s.jtagFlag == STD_LOW || s.jtagFlag == STD_HIGH) &&
    (s.configPtr.Some? ==> s.configPtr.value.Valid()) &&
    (s.status == PORT_NOT_INITIALIZED ==> s.configPtr.None?)
  }

  /** The state at reset, with the hardware's register contents as given. */
  function ResetState(gpio: seq<PortBlock>, rcgc2: bv32): (s: PortState)
    requires |gpio| == 6
    ensures WellFormed(s)
    ensures s.status == PORT_NOT_INITIALIZED && s.jtagFlag == STD_LOW && s.configPtr.None?
    ensures s.gpio == gpio && s.rcgc2 == rcgc2 && s.det == []
  {
    PortState(PORT_NOT_INITIALIZED, STD_LOW, None, rcgc2, gpio, [])
  }

  /** The unlock test of Port_Init as written: it compares Port_Num with both
      the port constant and the NMI pin number, and never looks at Pin_Num. */
  predicate IsUnlockPinAsWritten(pc: PinConfig) {
    (pc.portNum == PORT_D && pc.portNum == NMI_PIN2) ||
    (pc.portNum == PORT_F && pc.portNum == NMI_PIN1)
  }

  /** The JTAG test shared by Port_Init, Port_SetPinDirection and Port_RefreshPortDirection. */
  predicate IsJtagPin(pc: PinConfig) {
    (pc.portNum == PORT_C && pc.pinNum == JTAG_PIN1) ||
    (pc.portNum == PORT_C && pc.pinNum == JTAG_PIN2) ||
    (pc.portNum == PORT_C && pc.pinNum == JTAG_PIN3) ||
    (pc.portNum == PORT_C && pc.pinNum == JTAG_PIN4)
  }

  /** The JTAG test of Port_SetPinMode, with port C and PC0..PC3 written as numbers. */
  predicate IsJtagPinInSetPinMode(pc: PinConfig) {
    pc.portNum == 2 && pc.pinNum <= 3
  }

  /** The register block of port p, for p in 0..5. */
  function Block(s: PortState, p: uint8): PortBlock
    requires |s.gpio| == 6 && p < 6
  {
    s.gpio[p as int]
  }

  /** The state with the block of port p replaced by b. */
  function WithBlock(s: PortState, p: uint8, b: PortBlock): (r: PortState)
    requires |s.gpio| == 6 && p < 6
    ensures |r.gpio| == 6
  {
    s.(gpio := s.gpio[p as int := b])
  }

  function Report(s: PortState, events: seq<DetEvent>): PortState {
    s.(det := s.det + events)
  }

  // ---------------------------------------------------------------- Port_Init

  /** The first writes of the digital I/O branches of Port_Init and
      Port_SetPinMode: analog function off, alternate function off, PMC field cleared. */
  function DigitalSelect(b: PortBlock, pin: uint8): PortBlock
    requires pin < 8
  {
    AndReg(ClearRegBit(ClearRegBit(b, AMSEL, pin), AFSEL, pin), PCTL, !NibbleMask(pin))
  }

  /** A digital output: GPIODIR set, then GPIODATA from the initial value. */
  function DioOutput(b: PortBlock, pin: uint8, initial: uint8): PortBlock
    requires pin < 8
  {
    var c := SetRegBit(b, DIR, pin);
    if initial == STD_HIGH then SetRegBit(c, DATA, pin) else ClearRegBit(c, DATA, pin)
  }

  /** A digital input: GPIODIR cleared, then the internal resistor. */
  function DioInput(b: PortBlock, pin: uint8, resistor: InternalResistor): PortBlock
    requires pin < 8
  {
    var c := ClearRegBit(b, DIR, pin);
    match resistor
    case PULL_UP => SetRegBit(c, PUR, pin)
    case PULL_DOWN => SetRegBit(c, PDR, pin)
    case OFF => ClearRegBit(ClearRegBit(c, PUR, pin), PDR, pin)
  }

  /** Port_Init on a digital I/O pin. */
  function InitDioBlock(b: PortBlock, pc: PinConfig): PortBlock
    requires pc.Valid()
  {
    var pin := pc.pinNum;
    var b1 := DigitalSelect(b, pin);
    var b2 :=
      if pc.pinDirection == PORT_PIN_OUT then DioOutput(b1, pin, pc.pinInitialValue)
      else DioInput(b1, pin, pc.resistor);
    SetRegBit(b2, DEN, pin)
  }

  /** Port_Init on an analog (ADC) pin; both directions set the GPIODIR bit. */
  function InitAdcBlock(b: PortBlock, pc: PinConfig): PortBlock
    requires pc.Valid()
  {
    var pin := pc.pinNum;
    SetRegBit(SetRegBit(ClearRegBit(b, DEN, pin), DIR, pin), AMSEL, pin)
  }

  /** `GPIOPCTL &= ~(0xF << pin*4)` then `GPIOPCTL |= mode << pin*4`: the PMC
      field of the pin set to the alternate function `mode`. */
  function SelectFunction(b: PortBlock, pin: uint8, mode: uint8): PortBlock
    requires pin < 8
  {
    OrReg(AndReg(b, PCTL, !NibbleMask(pin)), PCTL, (mode as bv32) << (4 * (pin as bv32)))
  }

  /** Port_Init on a pin whose mode lies strictly between the digital I/O and ADC modes. */
  function InitAltBlock(b: PortBlock, pc: PinConfig): PortBlock
    requires pc.Valid()
  {
    var pin := pc.pinNum;
    var b1 := SetRegBit(ClearRegBit(b, AMSEL, pin), AFSEL, pin);
    SetRegBit(SelectFunction(b1, pin, pc.pinMode), DEN, pin)
  }

  /** What Port_Init's mode dispatch leaves in the pin's port block. */
  function InitModeBlock(b: PortBlock, pc: PinConfig): PortBlock
    requires pc.Valid()
  {
    if pc.pinMode == PORT_DIO_MODE then InitDioBlock(b, pc)
    else if pc.pinMode == PORT_ALTERNATE_FUNCTION_ADC_MODE then InitAdcBlock(b, pc)
    else if PORT_DIO_MODE < pc.pinMode < PORT_ALTERNATE_FUNCTION_ADC_MODE then InitAltBlock(b, pc)
    else b
  }

  /** The clock gating step: `SYSCTL_REGCGC2_REG |= 1 << Port_Num`. */
  function WithClock(s: PortState, port: uint8): PortState
    requires port < 6
  {
    s.(rcgc2 := SetBit(s.rcgc2, port))
  }

  /** The unlock test of Port_Init's loop and the JTAG test that follows it.
      The unlock branch cannot be taken (see PortInitProperties.UnlockTestNeverHolds),
      so its GPIOLOCK and GPIOCR writes never happen. */
  function WithUnlockOrJtag(s: PortState, pc: PinConfig): (r: PortState)
    requires |s.gpio| == 6 && pc.Valid()
    ensures |r.gpio| == 6
  {
    if IsUnlockPinAsWritten(pc) then assert false; s
    else if IsJtagPin(pc) then s.(jtagFlag := STD_HIGH)
    else s
  }

  /** The mode dispatch of Port_Init applied to the pin's port. */
  function WithInitMode(s: PortState, pc: PinConfig): (r: PortState)
    requires |s.gpio| == 6 && pc.Valid()
    ensures |r.gpio| == 6
  {
    WithBlock(s, pc.portNum, InitModeBlock(Block(s, pc.portNum), pc))
  }

  /** One iteration of Port_Init's loop for descriptor pc. */
  function InitPin(s: PortState, pc: PinConfig): (r: PortState)
    requires |s.gpio| == 6 && pc.Valid()
    ensures |r.gpio| == 6
  {
    WithInitMode(WithUnlockOrJtag(WithClock(s, pc.portNum), pc), pc)
  }

  predicate AllValid(pins: seq<PinConfig>) {
    forall k :: 0 <= k < |pins| ==> pins[k].Valid()
  }

  /** The state after the first n iterations of Port_Init's loop. */
  function InitLoop(s: PortState, pins: seq<PinConfig>, n: nat): (r: PortState)
    requires |s.gpio| == 6 && AllValid(pins) && n <= |pins|
    ensures |r.gpio| == 6
  {
    if n == 0 then s else InitPin(InitLoop(s, pins, n - 1), pins[n - 1])
  }

  /** Port_Init(ConfigPtr); None is the null pointer. */
  function InitSpec(s: PortState, configPtr: Option<ConfigType>): (r: PortState)
    requires |s.gpio| == 6
    requires configPtr.Some? ==> configPtr.value.Valid()
    ensures |r.gpio| == 6
  {
    var s1 := if configPtr.None? then Report(s, [PortError(Port_Init_SID, PORT_E_PARAM_CONFIG)]) else s;
    var s2 := s1.(status := PORT_INITIALIZED, configPtr := configPtr);
    match configPtr
    case None => s2  // the loop would dereference the null pointer
    case Some(cfg) => InitLoop(s2, cfg.pins, |cfg.pins|)
  }

  // ----------------------------------------------------- Port_SetPinDirection

  /** The state leaves the shift `1 << Pin` of Port_SetPinDirection defined:
      either Pin < 32, or the call reports an error or hits a JTAG pin first. */
  predicate SetPinDirectionDefined(s: PortState, pin: uint8)
    requires WellFormed(s)
  {
    pin < 32 || pin as int >= PORT_CONFIGURED_PINS || s.configPtr.None? ||
    s.configPtr.value.pins[pin].pinDirectionChange == Pin_direction_changeable_OFF ||
    IsJtagPin(s.configPtr.value.pins[pin])
  }

  /** Port_SetPinDirection's table lookup is defined: there is a table and Pin indexes it. */
  predicate PinReadable(s: PortState, pin: uint8) {
    s.configPtr.Some? && (pin as int) < PORT_CONFIGURED_PINS
  }

  /** The development errors Port_SetPinDirection reports, in order. The pin
      range and unchangeable-direction errors carry the service ID of Port_Init. */
  function SetPinDirectionErrors(s: PortState, pin: uint8): seq<DetEvent>
    requires WellFormed(s)
  {
    (if s.status == PORT_NOT_INITIALIZED then [PortError(Port_Set_Pin_Direction_SID, PORT_E_UNINIT)] else []) +
    (if pin as int >= PORT_CONFIGURED_PINS then [PortError(Port_Init_SID, PORT_E_PARAM_PIN)] else []) +
    (if PinReadable(s, pin) && s.configPtr.value.pins[pin].pinDirectionChange == Pin_direction_changeable_OFF
     then [PortError(Port_Init_SID, PORT_E_DIRECTION_UNCHANGEABLE)] else [])
  }

  /** CLEAR_BIT or SET_BIT of bit `bit` of GPIODIR of port `port`. */
  function WithDirection(s: PortState, port: uint8, bit: uint8, direction: PinDirection): (r: PortState)
    requires |s.gpio| == 6 && port < 6 && bit < 32
    ensures |r.gpio| == 6
  {
    var b := Block(s, port);
    WithBlock(s, port, if direction == PORT_PIN_OUT then SetRegBit(b, DIR, bit) else ClearRegBit(b, DIR, bit))
  }

  /** The error-free path of Port_SetPinDirection for descriptor pc = Pins[pin]. */
  function WithPinDirection(s: PortState, pc: PinConfig, pin: uint8, direction: PinDirection): (r: PortState)
    requires |s.gpio| == 6 && pc.Valid() && (pin < 32 || IsJtagPin(pc))
    ensures |r.gpio| == 6
  {
    var s1 := s.(status := PORT_INITIALIZED);
    if IsJtagPin(pc) then s1.(jtagFlag := STD_HIGH)
    // the bit written is Pin, the index into the table
    else WithDirection(s1, pc.portNum, pin, direction)
  }

  /** Port_SetPinDirection(Pin, Direction). */
  function SetPinDirectionSpec(s: PortState, pin: uint8, direction: PinDirection): (r: PortState)
    requires WellFormed(s) && SetPinDirectionDefined(s, pin)
    ensures |r.gpio| == 6
  {
    var errors := SetPinDirectionErrors(s, pin);
    var s1 := Report(s, errors);
    if !PinReadable(s, pin) then s1  // the changeability test would dereference null or read past the table
    else if errors != [] then s1
    else WithPinDirection(s1, s.configPtr.value.pins[pin], pin, direction)
  }

  // ------------------------------------------------ Port_RefreshPortDirection

  /** One iteration of Port_RefreshPortDirection's loop for descriptor pc; the
      changeability field is compared with STD_OFF. */
  function RefreshPin(s: PortState, pc: PinConfig): (r: PortState)
    requires |s.gpio| == 6 && pc.Valid()
    ensures |r.gpio| == 6
  {
    var s1 := if IsJtagPin(pc) then s.(jtagFlag := STD_HIGH) else s;
    if s1.jtagFlag == STD_LOW && pc.pinDirectionChange.Value() == STD_OFF
    then WithDirection(s1, pc.portNum, pc.pinNum, pc.pinDirection)
    else s1
  }

  /** The state after the first n iterations of Port_RefreshPortDirection's loop. */
  function RefreshLoop(s: PortState, pins: seq<PinConfig>, n: nat): (r: PortState)
    requires |s.gpio| == 6 && AllValid(pins) && n <= |pins|
    ensures |r.gpio| == 6
  {
    if n == 0 then s else RefreshPin(RefreshLoop(s, pins, n - 1), pins[n - 1])
  }

  /** Port_RefreshPortDirection(). */
  function RefreshSpec(s: PortState): (r: PortState)
    requires WellFormed(s)
    ensures |r.gpio| == 6
  {
    var s1 := if s.status == PORT_NOT_INITIALIZED
              then Report(s, [PortError(Port_Refresh_Port_Direction_SID, PORT_E_UNINIT)]) else s;
    match s1.configPtr
    case None => s1  // the loop would dereference the null pointer
    case Some(cfg) => RefreshLoop(s1, cfg.pins, |cfg.pins|)
  }

  // ---------------------------------------------------------- Port_SetPinMode

  /** The first writes of Port_SetPinMode's ADC branch: digital function off,
      alternate function off, PMC field cleared. */
  function AnalogSelect(b: PortBlock, pin: uint8): PortBlock
    requires pin < 8
  {
    AndReg(ClearRegBit(ClearRegBit(b, DEN, pin), AFSEL, pin), PCTL, !NibbleMask(pin))
  }

  /** `GPIOPCTL |= (Mode & 0x0000000F << (Pin_Num * 4))`: in C the shift binds
      tighter than `&`, so the bits OR-ed in are those of Mode under the pin's
      field, and the field is not cleared first. */
  function MergeFunction(b: PortBlock, pin: uint8, mode: uint8): PortBlock
    requires pin < 8
  {
    OrReg(b, PCTL, (mode as bv32) & NibbleMask(pin))
  }

  /** What Port_SetPinMode's mode dispatch leaves in the pin's port block. */
  function SetPinModeBlock(b: PortBlock, pin: uint8, mode: uint8): PortBlock
    requires pin < 8
  {
    if mode == PORT_DIO_MODE then
      SetRegBit(DigitalSelect(b, pin), DEN, pin)
    else if mode == PORT_ALTERNATE_FUNCTION_ADC_MODE then
      SetRegBit(AnalogSelect(b, pin), AMSEL, pin)
    else
      SetRegBit(MergeFunction(SetRegBit(ClearRegBit(b, AMSEL, pin), AFSEL, pin), pin, mode), DEN, pin)
  }

  /** The mode dispatch of Port_SetPinMode applied to the pin's port. */
  function WithPinMode(s: PortState, pc: PinConfig, mode: uint8): (r: PortState)
    requires |s.gpio| == 6 && pc.Valid()
    ensures |r.gpio| == 6
  {
    WithBlock(s, pc.portNum, SetPinModeBlock(Block(s, pc.portNum), pc.pinNum, mode))
  }

  /** The development errors Port_SetPinMode reports, in order; the
      changeability field is compared with STD_OFF. */
  function SetPinModeErrors(s: PortState, pin: uint8, mode: uint8): seq<DetEvent>
    requires WellFormed(s)
  {
    (if s.status == PORT_NOT_INITIALIZED then [PortError(Port_Set_Pin_Mode_SID, PORT_E_UNINIT)] else []) +
    (if pin as int >= PORT_CONFIGURED_PINS then [PortError(Port_Set_Pin_Mode_SID, PORT_E_PARAM_PIN)] else []) +
    (if mode > PORT_DIO_MODE then [PortError(Port_Set_Pin_Mode_SID, PORT_E_PARAM_INVALID_MODE)] else []) +
    (if PinReadable(s, pin) && s.configPtr.value.pins[pin].pinModeChange.Value() == STD_OFF
     then [PortError(Port_Set_Pin_Mode_SID, PORT_E_MODE_UNCHANGEABLE)] else [])
  }

  /** Port_SetPinMode(Pin, Mode); the errors it reports do not stop it. */
  function SetPinModeSpec(s: PortState, pin: uint8, mode: uint8): (r: PortState)
    requires WellFormed(s)
    ensures |r.gpio| == 6
  {
    var s1 := Report(s, SetPinModeErrors(s, pin, mode));
    if !PinReadable(s, pin) then s1  // the changeability test would dereference null or read past the table
    else
      var pc := s.configPtr.value.pins[pin];
      if IsJtagPinInSetPinMode(pc) then s1
      else WithPinMode(s1, pc, mode)
  }

  // ------------------------------------------------------ Port_GetVersionInfo

  /** The version record Port_GetVersionInfo copies out. */
  function ThisVersion(): VersionInfo {
    VersionInfo(PORT_VENDOR_ID, PORT_MODULE_ID,
                PORT_SW_MAJOR_VERSION, PORT_SW_MINOR_VERSION, PORT_SW_PATCH_VERSION)
  }

  /** The errors Port_GetVersionInfo reports; hasDestination is false for a null pointer. */
  function GetVersionInfoErrors(s: PortState, hasDestination: bool): seq<DetEvent> {
    (if !hasDestination then [PortError(Port_Get_Version_Info_SID, PORT_E_PARAM_POINTER)] else []) +
    (if s.status == PORT_NOT_INITIALIZED then [PortError(Port_Get_Version_Info_SID, PORT_E_UNINIT)] else [])
  }
}
