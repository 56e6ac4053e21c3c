/*
 * Properties of the Port driver services, stated about the functions of
 * PortSpec (and so about every run of the PortDriver methods).
 */
module PortProofs {
  import opened PortTypes
  import opened PortCfg
  import opened PortRegs
  import opened PortSpec

  // ------------------------------------------------------------ descriptors

  /** The descriptor Port_SetPinDirection and Port_SetPinMode read for Pin. */
  function PinEntry(s: PortState, pin: uint8): PinConfig
    requires WellFormed(s) && PinReadable(s, pin)
  {
    s.configPtr.value.pins[pin]
  }

  /** The index of the descriptor among the first n of the table that names
      pin q of port p, searching from the last one; None when none does. */
  function Named(pins: seq<PinConfig>, n: nat, p: uint8, q: uint8): (o: Option<nat>)
    requires n <= |pins|
    ensures o.Some? ==> o.value < n && pins[o.value].portNum == p && pins[o.value].pinNum == q
    ensures o.Some? ==> forall j :: o.value < j < n ==> !(pins[j].portNum == p && pins[j].pinNum == q)
    ensures o.None? ==> forall i :: 0 <= i < n ==> !(pins[i].portNum == p && pins[i].pinNum == q)
  {
    if n == 0 then None
    else if pins[n - 1].portNum == p && pins[n - 1].pinNum == q then Some(n - 1)
    else Named(pins, n - 1, p, q)
  }

  /** In a table without duplicates, the descriptor that names a pin is the only one. */
  lemma NamedUnique(pins: seq<PinConfig>, n: nat, i: nat)
    requires DistinctPins(pins) && i < n <= |pins|
    ensures Named(pins, n, pins[i].portNum, pins[i].pinNum) == Some(i)
  {
  }

  // ------------------------------------------------------- well-formedness

  lemma {:induction false} InitLoopFlag(s: PortState, pins: seq<PinConfig>, n: nat)
    requires |s.gpio| == 6 && AllValid(pins) && n <= |pins|
    requires s.jtagFlag == STD_LOW || s.jtagFlag == STD_HIGH
    ensures InitLoop(s, pins, n).jtagFlag == STD_LOW || InitLoop(s, pins, n).jtagFlag == STD_HIGH
    ensures InitLoop(s, pins, n).status == s.status && InitLoop(s, pins, n).configPtr == s.configPtr
  {
    if n > 0 {
      InitLoopFlag(s, pins, n - 1);
    }
  }

  /** Port_Init keeps the driver state well formed. */
  lemma InitWellFormed(s: PortState, configPtr: Option<ConfigType>)
    requires WellFormed(s)
    requires configPtr.Some? ==> configPtr.value.Valid()
    ensures WellFormed(InitSpec(s, configPtr))
  {
    if configPtr.Some? {
      InitLoopFlag(s.(status := PORT_INITIALIZED, configPtr := configPtr), configPtr.value.pins, |configPtr.value.pins|);
    }
  }

  lemma SetPinDirectionWellFormed(s: PortState, pin: uint8, direction: PinDirection)
    requires WellFormed(s) && SetPinDirectionDefined(s, pin)
    ensures WellFormed(SetPinDirectionSpec(s, pin, direction))
  {
  }

  lemma {:induction false} RefreshLoopFrame(s: PortState, pins: seq<PinConfig>, n: nat)
    requires |s.gpio| == 6 && AllValid(pins) && n <= |pins|
    requires s.jtagFlag == STD_LOW || s.jtagFlag == STD_HIGH
    ensures RefreshLoop(s, pins, n).jtagFlag == STD_LOW || RefreshLoop(s, pins, n).jtagFlag == STD_HIGH
    ensures RefreshLoop(s, pins, n).status == s.status && RefreshLoop(s, pins, n).configPtr == s.configPtr
    ensures RefreshLoop(s, pins, n).rcgc2 == s.rcgc2 && RefreshLoop(s, pins, n).det == s.det
  {
    if n > 0 {
      RefreshLoopFrame(s, pins, n - 1);
    }
  }

  lemma RefreshWellFormed(s: PortState)
    requires WellFormed(s)
    ensures WellFormed(RefreshSpec(s))
  {
    var s1 := if s.status == PORT_NOT_INITIALIZED
              then Report(s, [PortError(Port_Refresh_Port_Direction_SID, PORT_E_UNINIT)]) else s;
    if s1.configPtr.Some? {
      RefreshLoopFrame(s1, s1.configPtr.value.pins, |s1.configPtr.value.pins|);
    }
  }

  lemma SetPinModeWellFormed(s: PortState, pin: uint8, mode: uint8)
    requires WellFormed(s)
    ensures WellFormed(SetPinModeSpec(s, pin, mode))
  {
  }
}
