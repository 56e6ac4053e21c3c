/*
 * The services called one after another, in any order: Port_Init is the only
 * service that changes the configuration pointer or the initialization
 * status, the status never falls back to PORT_NOT_INITIALIZED, JTAG_flag
 * never falls back to STD_LOW, the Det log only grows, and before Port_Init
 * every other service reports PORT_E_UNINIT and writes no register.
 */
module PortSequenceProperties {
  import opened PortTypes
  import opened PortCfg
  import opened PortRegs
  import opened PortSpec
  import opened PortProofs
  import PortInitProperties
  import PortDirectionProperties
  import opened PortRefreshProperties
  import opened PortModeProperties

  /** One call of a service of the driver. */
  datatype Call =
    | Init(configPtr: Option<ConfigType>)
    | SetPinDirection(pin: uint8, direction: PinDirection)
    | RefreshPortDirection
    | SetPinMode(pin: uint8, mode: uint8)
    | GetVersionInfo(hasDestination: bool)

  /** The call's C behaviour is defined in state s. */
  predicate CallDefined(s: PortState, c: Call)
    requires WellFormed(s)
  {
    match c
    case Init(configPtr) => configPtr.Some? ==> configPtr.value.Valid()
    case SetPinDirection(pin, _) => SetPinDirectionDefined(s, pin)
    case _ => true
  }

  /** The driver state after the call. */
  function Step(s: PortState, c: Call): (r: PortState)
    requires WellFormed(s) && CallDefined(s, c)
    ensures WellFormed(r)
  {
    match c
    case Init(configPtr) =>
      InitWellFormed(s, configPtr);
      InitSpec(s, configPtr)
    case SetPinDirection(pin, direction) =>
      SetPinDirectionWellFormed(s, pin, direction);
      SetPinDirectionSpec(s, pin, direction)
    case RefreshPortDirection =>
      RefreshWellFormed(s);
      RefreshSpec(s)
    case SetPinMode(pin, mode) =>
      SetPinModeWellFormed(s, pin, mode);
      SetPinModeSpec(s, pin, mode)
    case GetVersionInfo(hasDestination) =>
      Report(s, GetVersionInfoErrors(s, hasDestination))
  }

  /** Every call of the sequence is defined in the state the calls before it leave. */
  predicate RunDefined(s: PortState, calls: seq<Call>)
    requires WellFormed(s)
    decreases |calls|
  {
    calls == [] || (CallDefined(s, calls[0]) && RunDefined(Step(s, calls[0]), calls[1..]))
  }

  /** The driver state after the calls, in order. */
  function Run(s: PortState, calls: seq<Call>): (r: PortState)
    requires WellFormed(s) && RunDefined(s, calls)
    ensures WellFormed(r)
    decreases |calls|
  {
    if calls == [] then s else Run(Step(s, calls[0]), calls[1..])
  }

  // ------------------------------------------------------------- one call

  /** Only Port_Init sets the configuration pointer and the status, and it
      always sets PORT_INITIALIZED; the Det log only grows; JTAG_flag stays
      or becomes STD_HIGH. */
  lemma StepGlobals(s: PortState, c: Call)
    requires WellFormed(s) && CallDefined(s, c)
    ensures var t := Step(s, c);
            t.configPtr == (if c.Init? then c.configPtr else s.configPtr) &&
            t.status == (if c.Init? then PORT_INITIALIZED else s.status) &&
            s.det <= t.det &&
            (t.jtagFlag == s.jtagFlag || t.jtagFlag == STD_HIGH)
  {
    match c
    case Init(configPtr) =>
      PortInitProperties.InitSpecGlobals(s, configPtr);
      if configPtr.Some? {
        PortInitProperties.InitClocksLockAndJtag(s, configPtr.value, 0, 0);
      }
    case SetPinDirection(pin, direction) =>
    case RefreshPortDirection =>
      RefreshOnlyDirection(s, 0, DATA);
      if s.configPtr.Some? {
        RefreshJtag(s);
      }
    case SetPinMode(pin, mode) =>
      if !PinReadable(s, pin) || IsJtagPinInSetPinMode(PinEntry(s, pin)) {
        SetPinModeWithoutWrites(s, pin, mode);
      } else {
        SetPinModeWrites(s, pin, mode, 0, DIR);
      }
    case GetVersionInfo(hasDestination) =>
  }

  /** The service ID a call reports PORT_E_UNINIT with. */
  function UninitSid(c: Call): uint8 {
    match c
    case Init(_) => Port_Init_SID
    case SetPinDirection(_, _) => Port_Set_Pin_Direction_SID
    case RefreshPortDirection => Port_Refresh_Port_Direction_SID
    case SetPinMode(_, _) => Port_Set_Pin_Mode_SID
    case GetVersionInfo(_) => Port_Get_Version_Info_SID
  }

  /** Before Port_Init every other service reports PORT_E_UNINIT with its own
      service ID and leaves the clock gating register, every GPIO register and
      JTAG_flag as they were. */
  lemma StepBeforeInit(s: PortState, c: Call)
    requires WellFormed(s) && CallDefined(s, c)
    requires s.status == PORT_NOT_INITIALIZED && !c.Init?
    ensures var t := Step(s, c);
            t.gpio == s.gpio && t.rcgc2 == s.rcgc2 && t.jtagFlag == s.jtagFlag &&
            |s.det| < |t.det| && s.det <= t.det &&
            PortError(UninitSid(c), PORT_E_UNINIT) in t.det[|s.det|..]
  {
    var t := Step(s, c);
    match c
    case SetPinDirection(pin, direction) =>
      assert t.det[|s.det|..] == SetPinDirectionErrors(s, pin);
      PortDirectionProperties.SetPinDirectionErrorCases(s, pin);
    case RefreshPortDirection =>
      assert t.det[|s.det|..] == [PortError(Port_Refresh_Port_Direction_SID, PORT_E_UNINIT)];
    case SetPinMode(pin, mode) =>
      SetPinModeWithoutWrites(s, pin, mode);
      assert t.det[|s.det|..] == SetPinModeErrors(s, pin, mode);
      SetPinModeErrorCases(s, pin, mode);
    case GetVersionInfo(hasDestination) =>
      assert t.det[|s.det|..] == GetVersionInfoErrors(s, hasDestination);
  }

  // ------------------------------------------------------ call sequences

  /** The status after a sequence of calls is PORT_INITIALIZED exactly when it
      was before or one of the calls is Port_Init; the configuration pointer
      is the one of the last Port_Init, if any. */
  lemma {:induction false} RunStatus(s: PortState, calls: seq<Call>)
    requires WellFormed(s) && RunDefined(s, calls)
    ensures Run(s, calls).status == PORT_INITIALIZED
            <==> s.status == PORT_INITIALIZED || exists i :: 0 <= i < |calls| && calls[i].Init?
    ensures (forall i :: 0 <= i < |calls| ==> !calls[i].Init?) ==> Run(s, calls).configPtr == s.configPtr
    decreases |calls|
  {
    if calls != [] {
      var t := Step(s, calls[0]);
      StepGlobals(s, calls[0]);
      RunStatus(t, calls[1..]);
      if exists i :: 0 <= i < |calls| && calls[i].Init? {
        var i :| 0 <= i < |calls| && calls[i].Init?;
        if i > 0 {
          assert calls[1..][i - 1].Init?;
        }
      }
      if exists i :: 0 <= i < |calls| - 1 && calls[1..][i].Init? {
        var i :| 0 <= i < |calls| - 1 && calls[1..][i].Init?;
        assert calls[i + 1].Init?;
      }
      if forall i :: 0 <= i < |calls| ==> !calls[i].Init? {
        assert forall i :: 0 <= i < |calls| - 1 ==> !calls[1..][i].Init? by {
          forall i | 0 <= i < |calls| - 1
            ensures !calls[1..][i].Init?
          {
            assert calls[1..][i] == calls[i + 1];
          }
        }
      }
    }
  }

  /** Once raised, JTAG_flag stays STD_HIGH; the Det log only grows. */
  lemma {:induction false} RunMonotone(s: PortState, calls: seq<Call>)
    requires WellFormed(s) && RunDefined(s, calls)
    ensures s.jtagFlag == STD_HIGH ==> Run(s, calls).jtagFlag == STD_HIGH
    ensures s.det <= Run(s, calls).det
    decreases |calls|
  {
    if calls != [] {
      StepGlobals(s, calls[0]);
      RunMonotone(Step(s, calls[0]), calls[1..]);
    }
  }

  /** A sequence of calls without Port_Init on an uninitialized driver writes
      no register and reports at least one error per call. */
  lemma {:induction false} RunBeforeInit(s: PortState, calls: seq<Call>)
    requires WellFormed(s) && RunDefined(s, calls)
    requires s.status == PORT_NOT_INITIALIZED
    requires forall i :: 0 <= i < |calls| ==> !calls[i].Init?
    ensures var t := Run(s, calls);
            t.status == PORT_NOT_INITIALIZED && t.gpio == s.gpio && t.rcgc2 == s.rcgc2 &&
            t.jtagFlag == s.jtagFlag && |t.det| >= |s.det| + |calls|
    decreases |calls|
  {
    if calls != [] {
      assert !calls[0].Init?;
      StepGlobals(s, calls[0]);
      StepBeforeInit(s, calls[0]);
      assert forall i :: 0 <= i < |calls| - 1 ==> calls[1..][i] == calls[i + 1];
      RunBeforeInit(Step(s, calls[0]), calls[1..]);
    }
  }
}
