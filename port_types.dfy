/*
 * Data types and constants of the TM4C123GH6PM Port driver header (Port.h):
 * the identifiers reported to the Default Error Tracer (Det), the service and
 * error codes, the pin descriptor and the configuration set handed to Port_Init.
 *
 * The C unsigned types uint8 and uint16 are modelled as bit-vectors of the same
 * width, so that comparisons are unsigned and conversions to a 32-bit register
 * value are zero-extensions, exactly as in C.
 */
module PortTypes {

  import PortCfg

  type uint8 = bv8
  type uint16 = bv16

  datatype Option<T> = None | Some(value: T)

  // Identification of the module towards Det and version reporting.
  const PORT_VENDOR_ID: uint16 := 1000
  const PORT_MODULE_ID: uint16 := 120
  const PORT_INSTANCE_ID: uint8 := 0

  const PORT_SW_MAJOR_VERSION: uint8 := 1
  const PORT_SW_MINOR_VERSION: uint8 := 0
  const PORT_SW_PATCH_VERSION: uint8 := 0

  // AUTOSAR release 4.0.3
  const PORT_AR_RELEASE_MAJOR_VERSION: uint8 := 4
  const PORT_AR_RELEASE_MINOR_VERSION: uint8 := 0
  const PORT_AR_RELEASE_PATCH_VERSION: uint8 := 3

  // Values of the module status variable Port_Status.
  const PORT_INITIALIZED: uint8 := 1
  const PORT_NOT_INITIALIZED: uint8 := 0

  // Service identifiers.
  const Port_Init_SID: uint8 := 0x00
  const Port_Set_Pin_Direction_SID: uint8 := 0x01
  const Port_Refresh_Port_Direction_SID: uint8 := 0x02
  const Port_Get_Version_Info_SID: uint8 := 0x03
  const Port_Set_Pin_Mode_SID: uint8 := 0x04

  // Development error codes.
  const PORT_E_PARAM_PIN: uint8 := 0x0A
  const PORT_E_DIRECTION_UNCHANGEABLE: uint8 := 0x0B
  const PORT_E_PARAM_CONFIG: uint8 := 0x0C
  const PORT_E_PARAM_INVALID_MODE: uint8 := 0x0D
  const PORT_E_MODE_UNCHANGEABLE: uint8 := 0x0E
  const PORT_E_UNINIT: uint8 := 0x0F
  const PORT_E_PARAM_POINTER: uint8 := 0x10

  /** The service identifiers, in the order Port.h declares them. */
  function ServiceIds(): (ids: seq<uint8>)
    ensures |ids| == 5
    ensures forall i, j :: 0 <= i < j < |ids| ==> ids[i] != ids[j]
    ensures forall i :: 0 <= i < |ids| ==> ids[i] as int == i
  {
    [Port_Init_SID, Port_Set_Pin_Direction_SID, Port_Refresh_Port_Direction_SID,
     Port_Get_Version_Info_SID, Port_Set_Pin_Mode_SID]
  }

  /** The development error codes, in the order Port.h declares them. */
  function ErrorCodes(): (codes: seq<uint8>)
    ensures |codes| == 7
    ensures forall i, j :: 0 <= i < j < |codes| ==> codes[i] != codes[j]
    ensures forall i :: 0 <= i < |codes| ==> 0x0A <= codes[i] <= 0x10
  {
    [PORT_E_PARAM_PIN, PORT_E_DIRECTION_UNCHANGEABLE, PORT_E_PARAM_CONFIG,
     PORT_E_PARAM_INVALID_MODE, PORT_E_MODE_UNCHANGEABLE, PORT_E_UNINIT,
     PORT_E_PARAM_POINTER]
  }

  /** Port_PinDirectionType; a C enum, so its enumerators are 0 and 1. */
  datatype PinDirection = PORT_PIN_IN | PORT_PIN_OUT {
    function Value(): (v: uint8)
      ensures v <= 1
      ensures v == 0 <==> this == PORT_PIN_IN
    {
      if PORT_PIN_IN? then 0 else 1
    }
  }

  /** Port_InternalResistor: OFF = 0, PULL_UP = 1, PULL_DOWN = 2. */
  datatype InternalResistor = OFF | PULL_UP | PULL_DOWN {
    function Value(): (v: uint8)
      ensures v <= 2
      ensures v == 0 <==> this == OFF
      ensures v == 1 <==> this == PULL_UP
    {
      match this
      case OFF => 0
      case PULL_UP => 1
      case PULL_DOWN => 2
    }
  }

  /** Pin_direction_changeable: the _ON enumerator is 0 and _OFF is 1. */
  datatype DirectionChangeable = Pin_direction_changeable_ON | Pin_direction_changeable_OFF {
    function Value(): (v: uint8)
      ensures v <= 1
      ensures v == 0 <==> this == Pin_direction_changeable_ON
    {
      if Pin_direction_changeable_ON? then 0 else 1
    }
  }

  /** Pin_mode_changeable: the _ON enumerator is 0 and _OFF is 1. */
  datatype ModeChangeable = Pin_mode_changeable_ON | Pin_mode_changeable_OFF {
    function Value(): (v: uint8)
      ensures v <= 1
      ensures v == 0 <==> this == Pin_mode_changeable_ON
    {
      if Pin_mode_changeable_ON? then 0 else 1
    }
  }

  /** Port_ConfigPin: the descriptor of one configured pin. */
  datatype PinConfig = PinConfig(
    portNum: uint8,
    pinNum: uint8,
    pinMode: uint8,
    pinDirection: PinDirection,
    pinInitialValue: uint8,
    pinDirectionChange: DirectionChangeable,
    pinModeChange: ModeChangeable,
    resistor: InternalResistor)
  {
    /** The port is one of the six register blocks (0..5) and the pin one of its eight bits. */
    predicate Valid() {
      portNum < 6 && pinNum < 8
    }
  }

  /** Port_ConfigType: the array of descriptors passed to Port_Init. */
  datatype ConfigType = ConfigType(pins: seq<PinConfig>)
  {
    predicate Valid() {
      |pins| == PortCfg.PORT_CONFIGURED_PINS &&
      forall k :: 0 <= k < |pins| ==> pins[k].Valid()
    }
  }

  /** No two descriptors of the table name the same physical pin. */
  predicate DistinctPins(pins: seq<PinConfig>) {
    forall i, j :: 0 <= i < j < |pins| ==>
      pins[i].portNum != pins[j].portNum || pins[i].pinNum != pins[j].pinNum
  }

  /** Std_VersionInfoType, as filled in by Port_GetVersionInfo. */
  datatype VersionInfo = VersionInfo(
    vendorID: uint16,
    moduleID: uint16,
    swMajorVersion: uint8,
    swMinorVersion: uint8,
    swPatchVersion: uint8)

  /** One call of Det_ReportError(ModuleId, InstanceId, ApiId, ErrorId). */
  datatype DetEvent = DetEvent(moduleId: uint16, instanceId: uint8, apiId: uint8, errorId: uint8)

  /** The event this driver reports for service `sid` and error `code`. */
  function PortError(sid: uint8, code: uint8): DetEvent {
    DetEvent(PORT_MODULE_ID, PORT_INSTANCE_ID, sid, code)
  }
}
