# TM4C123GH6PM AUTOSAR Port driver — Dafny model

This project models the Port driver of the TM4C123GH6PM (Tiva C) AUTOSAR
stack, `DIO_PORT/Port.c` with the types and constants of `DIO_PORT/Port.h`.
It covers all five services:

- `Port_Init` walks the `PORT_CONFIGURED_PINS` descriptors of a configuration
  table. For each pin it enables the port clock, raises `JTAG_flag` for
  PC0..PC3, and programs the pin's GPIO registers for digital I/O, analog
  (ADC) or an alternate function.
- `Port_SetPinDirection` changes one pin's GPIODIR bit.
- `Port_RefreshPortDirection` is meant to rewrite the configured direction of every pin
  whose direction is not changeable (see the `STD_OFF` test below).
- `Port_SetPinMode` switches one pin between digital I/O, analog and
  alternate functions.
- `Port_GetVersionInfo` copies out the module's version record.

Each service reports its development errors to Det (`Det_ReportError`).

The model has three layers.

- **`PortTypes`, `PortCfg` and `PortRegs`: the data.**
  - `PortTypes` holds the header's types and constants: service IDs, error
    codes, the C enums, `Port_ConfigPin` and `Port_ConfigType`.
  - `PortCfg` holds the constants the driver takes from headers that are not
    part of this model (`Port_Cfg.h`, `Std_Types.h`). These are assumptions;
    they are listed below.
  - `PortRegs` holds the register surface. Each port is an abstract block of
    ten 32-bit registers: GPIODIR, GPIODATA, GPIOPUR, GPIOPDR, GPIODEN,
    GPIOAMSEL, GPIOAFSEL, GPIOPCTL, GPIOLOCK and GPIOCR. The block also
    carries the `SET_BIT` / `CLEAR_BIT` / nibble-mask operations the driver
    applies to it. `uint8` is `bv8` and every register is `bv32`.
- **`PortSpec`: the services as functions.** Each service is a function from
  a driver state `PortState` to the state one call leaves. `PortState` holds:
  - the three module globals `Port_Status`, `JTAG_flag` and `Port_ConfigPtr`
    (`None` is the null pointer);
  - the six GPIO blocks;
  - `SYSCTL_RCGC2`;
  - the sequence of events sent to Det.

  `Port_Init` and `Port_RefreshPortDirection` are step functions over the
  descriptor loop (`InitLoop`, `RefreshLoop`).
- **`Port.PortDriver`: the imperative driver.** It is a class whose fields
  are the same globals and registers. Its methods perform Port.c's
  read-modify-write sequence one register at a time, with loops over the
  table carrying their invariants. Each method is proved to end in the state
  the `PortSpec` function gives.

What the source promises is proved about the `PortSpec` functions in
`PortProofs`, `PortInitProperties`, `PortDirectionProperties`,
`PortRefreshProperties` and `PortModeProperties`. Every call keeps the state
well formed. The lemmas state, for every error, exactly when it is reported,
and, for every service, which register bits it writes and what it writes
there. `SetPinDirection`, `RefreshPortDirection` and `SetPinMode` are shown
to be idempotent. `PortSequenceProperties` lifts this to arbitrary sequences
of calls: only `Port_Init` sets the status and the pointer, the Det log only
grows, and before `Port_Init` no call writes a register.

The model follows the code as written, including these behaviours:

- **Dead unlock test (Port.c:105).** The test compares `Port_Num` with both
  `PORT_D` and `NMI_PIN2` (and with `PORT_F` and `NMI_PIN1`), so it never
  holds and GPIOLOCK/GPIOCR are never written (`UnlockTestNeverHolds`).
  PC0..PC3 are still configured by `Port_Init` after the JTAG flag is raised.
- **Direction bit is `Pin` (Port.c:339, 343).** `Port_SetPinDirection` writes
  bit `Pin` of GPIODIR, the index into the table, not the descriptor's
  `Pin_Num`. Its two parameter errors carry `Port_Init_SID`, not the
  service's own ID (Port.c:279, 292).
- **Changeability tests compare with `STD_OFF` (Port.c:427, 540).**
  `STD_OFF` is 0, the value of the `_ON` enumerator. Port.h:152-163 gives
  each of the two changeability enums an `_ON` and an `_OFF` member, and a C
  enum numbers them 0 and 1. So `Port_RefreshPortDirection` restores the
  pins marked `Pin_direction_changeable_ON`, and `Port_SetPinMode` reports
  `PORT_E_MODE_UNCHANGEABLE` for the pins marked `Pin_mode_changeable_ON`
  (`DirectionTestMeansChangeable`, `ModeTestMeansChangeable`).
- **`Port_SetPinMode` never stops on an error.** Every `Mode` above
  `PORT_DIO_MODE` is reported as invalid, and the mode dispatch still runs
  for any mode (`AdcModeReportedAndApplied`). Only PC0..PC3 return early.
- **Alternate-function bits lost (Port.c:609).** The alternate-function
  branch ORs `Mode & 0x0000000F << (Pin_Num * 4)` into GPIOPCTL. C binds the
  shift tighter than `&`, and the field is not cleared first, so for pins
  2..7 nothing reaches the pin's PMC field (`AltFunctionLostAbovePin1`,
  `AltFunctionNotSelectedExample`).
- **Undefined field name (Port.c:288).** `Port_SetPinDirection` reads a field
  `Pin_direction_changeable`, which `Port_ConfigPin` does not declare, and
  compares it with `PIN_DIRECTION_CHANGEABLE_OFF`, which is not defined
  either. The model reads the declared field `Pin_direction_change` and
  compares it with `Pin_direction_changeable_OFF`.
- **Undefined service-ID macro (Port.c:480).** `Port_GetVersionInfo`'s
  PORT_E_UNINIT report names `PORT_GET_VERSION_INFO_SID`, which Port.h does
  not define. The model uses `Port_Get_Version_Info_SID` (0x03), the ID the
  same function uses at Port.c:470.

Assumed constants (`port_cfg.dfy`):

- `PORT_CONFIGURED_PINS` = 43;
- `PORT_DIO_MODE` = 0 and `PORT_ALTERNATE_FUNCTION_ADC_MODE` = 15, with the
  alternate functions strictly between;
- `PORT_A`..`PORT_F` = 0..5;
- `NMI_PIN1` = 0 (PF0) and `NMI_PIN2` = 7 (PD7);
- `JTAG_PIN1`..`JTAG_PIN4` = 0..3;
- the AUTOSAR `STD_HIGH`/`STD_ON` = 1 and `STD_LOW`/`STD_OFF` = 0.

`PORT_DEV_ERROR_DETECT` and every API switch are taken as `STD_ON`.

## Model

| member | source | states |
|---|---|---|
| PortTypes.ServiceIds | DIO_PORT/Port.h:82-94 | the five service IDs are distinct and number the services 0x00..0x04 in declaration order |
| PortTypes.ErrorCodes | DIO_PORT/Port.h:101-119 | the seven development error codes are distinct and lie in 0x0A..0x10 |
| PortTypes.PinDirection.Value | DIO_PORT/Port.h:133-137 | Port_PinDirectionType is 0 exactly for PORT_PIN_IN, 1 for PORT_PIN_OUT |
| PortTypes.InternalResistor.Value | DIO_PORT/Port.h:146-149 | OFF, PULL_UP, PULL_DOWN are 0, 1, 2 |
| PortTypes.DirectionChangeable.Value | DIO_PORT/Port.h:152-156 | the _ON enumerator is 0 and _OFF is 1 |
| PortTypes.ModeChangeable.Value | DIO_PORT/Port.h:159-163 | the _ON enumerator is 0 and _OFF is 1 |
| PortSpec.ResetState | DIO_PORT/Port.c:31-38 | before any call the status is PORT_NOT_INITIALIZED, JTAG_flag is STD_LOW, the pointer is null and Det has seen nothing |
| PortRegs.SetBit | DIO_PORT/Port.c:144 | SET_BIT: the value with bit i set (bit i reads 1 afterwards and every other bit keeps its value, by SetBitAt) |
| PortRegs.ClearBit | DIO_PORT/Port.c:132 | CLEAR_BIT: the value with bit i cleared (bit i reads 0 afterwards and every other bit keeps its value, by ClearBitAt) |
| PortRegs.SetBitAt | DIO_PORT/Port.c:144 | after SET_BIT of bit i, bit j is set exactly when j is i or it was set |
| PortRegs.ClearBitAt | DIO_PORT/Port.c:132 | after CLEAR_BIT of bit i, bit j is set exactly when j is not i and it was set |
| PortRegs.ClearNibbleAt | DIO_PORT/Port.c:138 | `&= ~(0xF << i*4)` zeroes PMC field i and keeps every other field |
| PortRegs.SetNibbleAt | DIO_PORT/Port.c:224-227 | clearing field i and OR-ing a 4-bit m shifted into it leaves m in field i and every other field unchanged |
| PortRegs.BitAfterSetRegBit | DIO_PORT/Port.c:144 | SET_BIT on a register of a block sets that one bit of that one register |
| PortRegs.BitAfterClearRegBit | DIO_PORT/Port.c:132 | CLEAR_BIT on a register of a block clears that one bit of that one register |
| PortRegs.SetRegBitTwice | DIO_PORT/Port.c:144 | SET_BIT twice on the same bit equals once |
| PortRegs.ClearRegBitTwice | DIO_PORT/Port.c:132 | CLEAR_BIT twice on the same bit equals once |
| PortSpec.IsUnlockPinAsWritten | DIO_PORT/Port.c:105 | the unlock test as written: Port_Num compared with both PORT_D and NMI_PIN2, or with PORT_F and NMI_PIN1; never true (UnlockTestNeverHolds) |
| PortSpec.IsJtagPin | DIO_PORT/Port.c:114-118 | PC0..PC3 by the JTAG_PIN1..4 constants; PortModeProperties.JtagTestsAgree relates it to the other services' test |
| PortSpec.IsJtagPinInSetPinMode | DIO_PORT/Port.c:566 | the numeric test `Port_Num == 2 && Pin_Num <= 3`; equal to IsJtagPin (JtagTestsAgree) |
| PortSpec.DigitalSelect | DIO_PORT/Port.c:132-138 | AMSEL and AFSEL bits cleared, PMC field cleared (DigitalSelectBit, DigitalSelectPctl) |
| PortSpec.DioOutput | DIO_PORT/Port.c:141-156 | GPIODIR set, GPIODATA from the initial value (DioOutputBit, DioOutputFrame) |
| PortSpec.DioInput | DIO_PORT/Port.c:158-182 | GPIODIR cleared, then the chosen pull resistor or both cleared (DioInputBit, DioInputFrame) |
| PortSpec.InitDioBlock | DIO_PORT/Port.c:129-191 | the digital I/O branch of Port_Init; its bits follow InitBitWrite and its PMC field becomes 0 (DioBlockBit, DioBlockNibble) |
| PortSpec.InitAdcBlock | DIO_PORT/Port.c:194-212 | the ADC branch: DEN 0, GPIODIR and AMSEL 1 for either direction (AdcBlockBit) |
| PortSpec.SelectFunction | DIO_PORT/Port.c:224-227 | PMC field cleared then OR-ed with the mode (SelectFunctionNibble, SelectFunctionFrame) |
| PortSpec.InitAltBlock | DIO_PORT/Port.c:215-231 | the alternate branch: AMSEL 0, AFSEL and DEN 1, PMC field the mode (AltBlockBit, AltBlockNibble) |
| PortSpec.InitModeBlock | DIO_PORT/Port.c:129-232 | the mode dispatch by Pin_Mode; a mode above the ADC mode writes nothing (InitModeBlockBit, InitModeBlockNibble, InitModeBlockLock) |
| PortSpec.WithClock | DIO_PORT/Port.c:100 | SYSCTL_RCGC2 with bit Port_Num set (InitLoopClock) |
| PortSpec.WithUnlockOrJtag | DIO_PORT/Port.c:105-127 | the flag raised for PC0..PC3; the unlock branch is dead |
| PortSpec.WithInitMode | DIO_PORT/Port.c:129-232 | the pin's port block replaced by InitModeBlock of it |
| PortSpec.InitPin | DIO_PORT/Port.c:77-232 | one iteration of Port_Init's loop: clock, JTAG test, mode dispatch (InitPinParts, InitPinBit, InitPinNibble) |
| PortSpec.InitLoop | DIO_PORT/Port.c:75-232 | the state after the first n iterations of Port_Init's loop; keeps the six port blocks (what it writes is stated by InitLoopBit, InitLoopNibble, InitLoopClock, InitLoopJtag) |
| PortSpec.InitSpec | DIO_PORT/Port.c:56-233 | the state Port_Init leaves; keeps the six port blocks (see InitSpecGlobals, InitConfiguresPin, InitSelectsFunction) |
| PortSpec.SetPinDirectionSpec | DIO_PORT/Port.c:252-353 | the state Port_SetPinDirection leaves; keeps the six port blocks (see the PortDirectionProperties lemmas) |
| PortSpec.SetPinDirectionErrors | DIO_PORT/Port.c:259-300 | the errors Port_SetPinDirection reports, in order (SetPinDirectionNoErrors, SetPinDirectionErrorCases) |
| PortSpec.WithDirection | DIO_PORT/Port.c:336-350 | CLEAR_BIT or SET_BIT of one GPIODIR bit of one port (SetPinDirectionWritesBit, WithDirectionTwice) |
| PortSpec.WithPinDirection | DIO_PORT/Port.c:303-352 | the error-free path: status set, the flag raised for PC0..PC3, otherwise GPIODIR bit Pin written (SetPinDirectionOnJtagPin, SetPinDirectionWritesDir) |
| PortSpec.RefreshPin | DIO_PORT/Port.c:390-448 | one iteration of Port_RefreshPortDirection's loop (RefreshPinParts, RefreshPinBit) |
| PortSpec.RefreshLoop | DIO_PORT/Port.c:385-449 | the state after the first n iterations of Port_RefreshPortDirection's loop; keeps the six port blocks (see RefreshLoopBit, RefreshLoopJtag) |
| PortSpec.RefreshSpec | DIO_PORT/Port.c:368-450 | the state Port_RefreshPortDirection leaves; keeps the six port blocks (see the PortRefreshProperties lemmas) |
| PortSpec.AnalogSelect | DIO_PORT/Port.c:589-595 | DEN and AFSEL bits cleared, PMC field cleared (AnalogSelectBit, AnalogSelectPctl) |
| PortSpec.MergeFunction | DIO_PORT/Port.c:609 | `Mode & (0xF << Pin_Num*4)` OR-ed into GPIOPCTL, the field not cleared first (MergeFunctionFrame, AltPctl, AltNibble) |
| PortSpec.SetPinModeBlock | DIO_PORT/Port.c:572-613 | the mode dispatch of Port_SetPinMode (SetPinModeBlockBit, SetPinModeBlockNibble, SetPinModeBlockTwice) |
| PortSpec.WithPinMode | DIO_PORT/Port.c:550-613 | the pin's port block replaced by SetPinModeBlock of it (SetPinModeGpio) |
| PortSpec.SetPinModeErrors | DIO_PORT/Port.c:514-546 | the errors Port_SetPinMode reports, in order (SetPinModeNoErrors, SetPinModeErrorCases) |
| PortSpec.SetPinModeSpec | DIO_PORT/Port.c:512-614 | the state Port_SetPinMode leaves; keeps the six port blocks (see the PortModeProperties lemmas) |
| PortSpec.ThisVersion | DIO_PORT/Port.c:487-496 | the record copied out: vendor 1000, module 120, version 1.0.0 (Port.PortDriver.GetVersionInfo) |
| PortSpec.GetVersionInfoErrors | DIO_PORT/Port.c:466-486 | PORT_E_PARAM_POINTER for a null destination, then PORT_E_UNINIT before Port_Init (Port.PortDriver.GetVersionInfo) |
| Port.PortDriver.constructor | DIO_PORT/Port.c:31-38 | the driver starts in ResetState of the hardware's register contents |
| Port.PortDriver.DetReportError | DIO_PORT/Port.c:62-63 | one Det_ReportError call appends exactly one event with PORT_MODULE_ID, PORT_INSTANCE_ID, the service ID and the error code |
| Port.PortDriver.EnablePortClock | DIO_PORT/Port.c:100-101 | SYSCTL_RCGC2 gets bit Port_Num set, nothing else changes |
| Port.PortDriver.UnlockOrMarkJtag | DIO_PORT/Port.c:105-127 | the unlock branch is never taken; JTAG_flag becomes STD_HIGH for PC0..PC3, nothing else changes |
| Port.PortDriver.ConfigureDio | DIO_PORT/Port.c:129-191 | only the pin's port block changes, to InitDioBlock of it: AMSEL/AFSEL cleared, PMC field cleared, GPIODIR and GPIODATA or the pull resistors from the descriptor, DEN set |
| Port.PortDriver.ConfigureAdc | DIO_PORT/Port.c:194-212 | only the pin's port block changes: DEN cleared, GPIODIR set for both directions, AMSEL set |
| Port.PortDriver.ConfigureAlternate | DIO_PORT/Port.c:215-231 | only the pin's port block changes: AMSEL cleared, AFSEL set, PMC field replaced by the mode, DEN set |
| Port.PortDriver.ConfigurePinMode | DIO_PORT/Port.c:129-232 | the mode dispatch picks the branch by Pin_Mode; a mode above the ADC mode writes nothing |
| Port.PortDriver.ConfigurePin | DIO_PORT/Port.c:77-232 | one loop iteration ends in InitPin of the state before |
| Port.PortDriver.ConfigureAll | DIO_PORT/Port.c:75-232 | the loop over the PORT_CONFIGURED_PINS descriptors ends in InitLoop of the state before |
| Port.PortDriver.Init | DIO_PORT/Port.c:56-233 | Port_Init ends in InitSpec of the state before and keeps the state well formed |
| Port.PortDriver.WriteDirection | DIO_PORT/Port.c:336-350 | CLEAR_BIT for PORT_PIN_IN, SET_BIT for PORT_PIN_OUT on the given GPIODIR bit, nothing else |
| Port.PortDriver.ApplyPinDirection | DIO_PORT/Port.c:303-352 | the error-free path sets the status, raises JTAG_flag for PC0..PC3 and otherwise writes GPIODIR bit Pin of the pin's port |
| Port.PortDriver.CheckSetPinDirection | DIO_PORT/Port.c:259-300 | exactly SetPinDirectionErrors are reported, and the error flag is set exactly when there is one |
| Port.PortDriver.SetPinDirection | DIO_PORT/Port.c:252-353 | Port_SetPinDirection ends in SetPinDirectionSpec and keeps the state well formed |
| Port.PortDriver.RefreshPin | DIO_PORT/Port.c:390-448 | one loop iteration ends in RefreshPin of the state before |
| Port.PortDriver.RefreshPortDirection | DIO_PORT/Port.c:368-450 | Port_RefreshPortDirection ends in RefreshSpec and keeps the state well formed |
| Port.PortDriver.ApplyPinMode | DIO_PORT/Port.c:550-613 | the mode dispatch of Port_SetPinMode is WithPinMode on the pin's port |
| Port.PortDriver.CheckSetPinMode | DIO_PORT/Port.c:514-546 | exactly SetPinModeErrors are reported, in order, and nothing else changes |
| Port.PortDriver.SetPinMode | DIO_PORT/Port.c:512-614 | Port_SetPinMode ends in SetPinModeSpec and keeps the state well formed |
| Port.PortDriver.GetVersionInfo | DIO_PORT/Port.c:464-497 | PORT_E_PARAM_POINTER for a null destination and PORT_E_UNINIT before Port_Init are reported; a destination receives vendor 1000, module 120, version 1.0.0 |
| PortProofs.Named | DIO_PORT/Port.c:75-77 | the last descriptor among the first n that names a given port and pin: it names them and no later one does; none when no descriptor does |
| PortProofs.NamedUnique | DIO_PORT/Port.h:214-217 | in a table without duplicate pins, descriptor i is the one that names its pin |
| PortProofs.InitLoopFlag | DIO_PORT/Port.c:75-127 | the loop keeps JTAG_flag STD_LOW or STD_HIGH and never changes status or pointer |
| PortProofs.InitWellFormed | DIO_PORT/Port.c:56-233 | Port_Init keeps the driver state well formed |
| PortProofs.SetPinDirectionWellFormed | DIO_PORT/Port.c:252-353 | Port_SetPinDirection keeps the driver state well formed |
| PortProofs.RefreshLoopFrame | DIO_PORT/Port.c:385-449 | the refresh loop changes neither status, pointer, clock gating nor the Det log, and keeps the flag boolean |
| PortProofs.RefreshWellFormed | DIO_PORT/Port.c:368-450 | Port_RefreshPortDirection keeps the driver state well formed |
| PortProofs.SetPinModeWellFormed | DIO_PORT/Port.c:512-614 | Port_SetPinMode keeps the driver state well formed |
| PortInitProperties.DigitalSelectBit | DIO_PORT/Port.c:132-138 | the digital selection clears the pin's AMSEL and AFSEL bits and no other one-bit-per-pin bit |
| PortInitProperties.DioOutputBit | DIO_PORT/Port.c:141-156 | an output sets GPIODIR and sets GPIODATA exactly when the initial value is STD_HIGH |
| PortInitProperties.DioInputBit | DIO_PORT/Port.c:158-182 | an input clears GPIODIR and sets exactly the chosen pull resistor, or clears both for OFF |
| PortInitProperties.DioBlockBit | DIO_PORT/Port.c:129-191 | every one-bit-per-pin bit after the digital I/O branch follows the InitBitWrite table |
| PortInitProperties.AdcBlockBit | DIO_PORT/Port.c:194-212 | every one-bit-per-pin bit after the ADC branch follows the table: DEN 0, GPIODIR and AMSEL 1 |
| PortInitProperties.AltBlockBit | DIO_PORT/Port.c:215-231 | every one-bit-per-pin bit after the alternate branch follows the table: AMSEL 0, AFSEL and DEN 1 |
| PortInitProperties.SelectFunctionFrame | DIO_PORT/Port.c:224-227 | the PMC write changes no register but GPIOPCTL |
| PortInitProperties.InitModeBlockBit | DIO_PORT/Port.c:129-232 | bit q of each one-bit-per-pin register after the dispatch is the table's entry for the pin and its old value elsewhere |
| PortInitProperties.SelectFunctionNibble | DIO_PORT/Port.c:224-227 | clear then OR leaves the mode in the pin's PMC field and every other field unchanged |
| PortInitProperties.DigitalSelectPctl | DIO_PORT/Port.c:138 | the digital selection clears exactly the pin's GPIOPCTL field |
| PortInitProperties.DioOutputFrame | DIO_PORT/Port.c:141-156 | an output writes no register but GPIODIR and GPIODATA |
| PortInitProperties.DioInputFrame | DIO_PORT/Port.c:158-182 | an input writes no register but GPIODIR, GPIOPUR and GPIOPDR |
| PortInitProperties.DioBlockPctl | DIO_PORT/Port.c:138-189 | GPIOPCTL after the digital branch is what the PMC clear left |
| PortInitProperties.AltBlockPctl | DIO_PORT/Port.c:218-230 | GPIOPCTL after the alternate branch is what the PMC write left |
| PortInitProperties.DioBlockNibble | DIO_PORT/Port.c:129-191 | the digital branch leaves 0 in the pin's PMC field and every other field unchanged |
| PortInitProperties.AltBlockNibble | DIO_PORT/Port.c:215-231 | the alternate branch leaves Pin_Mode in the pin's PMC field and every other field unchanged |
| PortInitProperties.InitModeBlockNibble | DIO_PORT/Port.c:129-232 | each PMC field after the dispatch follows InitNibbleWrite: 0 for digital I/O, the mode for an alternate function, unchanged otherwise |
| PortInitProperties.InitModeBlockLock | DIO_PORT/Port.c:129-232 | the dispatch never writes GPIOLOCK |
| PortInitProperties.InitPinParts | DIO_PORT/Port.c:77-232 | one iteration sets the port's clock bit, raises the flag for PC0..PC3, reprograms only the pin's own port block and touches no other global |
| PortInitProperties.InitPinBit | DIO_PORT/Port.c:77-232 | bit q of register r of port p after one iteration, for every port, register and bit |
| PortInitProperties.InitLoopBit | DIO_PORT/Port.c:75-232 | after n iterations each one-bit-per-pin bit is the table entry of the descriptor that names the pin, or its old value |
| PortInitProperties.InitBitAfterStep | DIO_PORT/Port.c:75 | the reference value of a bit after n iterations unfolds one descriptor at a time |
| PortInitProperties.InitPinNibble | DIO_PORT/Port.c:77-232 | each PMC field of each port after one iteration |
| PortInitProperties.InitNibbleAfterStep | DIO_PORT/Port.c:75 | the reference value of a PMC field after n iterations unfolds one descriptor at a time |
| PortInitProperties.InitLoopNibble | DIO_PORT/Port.c:75-232 | after n iterations each PMC field is what the descriptor naming that pin writes, or its old value |
| PortInitProperties.InitLoopLock | DIO_PORT/Port.c:75-232 | no iteration writes GPIOLOCK |
| PortInitProperties.InitLoopClock | DIO_PORT/Port.c:75-101 | after n iterations, a clock bit is set exactly when it was before or some descriptor is on that port |
| PortInitProperties.InitLoopJtag | DIO_PORT/Port.c:114-123 | after n iterations JTAG_flag is STD_HIGH exactly when some descriptor is PC0..PC3, else its old value |
| PortInitProperties.InitSpecGlobals | DIO_PORT/Port.c:58-75 | Port_Init always sets PORT_INITIALIZED and stores the pointer; a null pointer reports PORT_E_PARAM_CONFIG with Port_Init_SID and writes no register; a table reports nothing |
| PortInitProperties.InitLoopDet | DIO_PORT/Port.c:75-232 | the loop reports nothing |
| PortInitProperties.InitConfiguresPin | DIO_PORT/Port.c:56-233 | in a table without duplicates every configured pin's bits follow its descriptor's table entry |
| PortInitProperties.InitSelectsFunction | DIO_PORT/Port.c:56-233 | every configured digital I/O or alternate pin gets PMC field 0 or its mode |
| PortInitProperties.InitLoopUnnamedBit | DIO_PORT/Port.c:75-232 | for any table, a pin none of the first n descriptors names keeps every one-bit-per-pin bit |
| PortInitProperties.InitLoopUnnamedNibble | DIO_PORT/Port.c:75-232 | for any table, a pin none of the first n descriptors names keeps its PMC field |
| PortInitProperties.InitLeavesOtherPins | DIO_PORT/Port.c:56-233 | for any table, duplicates included, a pin no descriptor names keeps every register bit and its PMC field |
| PortInitProperties.InitClocksLockAndJtag | DIO_PORT/Port.c:100-123 | the clock of exactly the used ports is enabled, GPIOLOCK is never written, JTAG_flag is raised exactly when the table holds PC0..PC3 |
| PortInitProperties.UnlockTestNeverHolds | DIO_PORT/Port.c:105 | the unlock test is false for every descriptor, PD7 and PF0 included |
| PortDirectionProperties.SetPinDirectionNoErrors | DIO_PORT/Port.c:259-300 | nothing is reported exactly when initialized, Pin < PORT_CONFIGURED_PINS and the descriptor says Pin_direction_changeable_ON |
| PortDirectionProperties.SetPinDirectionErrorCases | DIO_PORT/Port.c:261-295 | each of UNINIT, PARAM_PIN, DIRECTION_UNCHANGEABLE is reported exactly when its condition holds; only UNINIT carries the service's own ID, the other two carry Port_Init_SID |
| PortDirectionProperties.SetPinDirectionOnError | DIO_PORT/Port.c:303 | after an error, or with no readable descriptor, only the Det log changes |
| PortDirectionProperties.SetPinDirectionOnJtagPin | DIO_PORT/Port.c:324-332 | an error-free call on PC0..PC3 only raises JTAG_flag |
| PortDirectionProperties.SetPinDirectionWritesDir | DIO_PORT/Port.c:303-352 | otherwise the call is the GPIODIR write of bit Pin on the pin's port; no global and no other register changes |
| PortDirectionProperties.SetPinDirectionWritesBit | DIO_PORT/Port.c:336-350 | only bit Pin of the pin's port's GPIODIR changes, to 1 for PORT_PIN_OUT and 0 for PORT_PIN_IN |
| PortDirectionProperties.WithDirectionTwice | DIO_PORT/Port.c:336-350 | the same GPIODIR write twice equals it once |
| PortDirectionProperties.SetPinDirectionIdempotent | DIO_PORT/Port.c:252-353 | a repeated call reports the same errors again and changes nothing else |
| PortRefreshProperties.DirectionTestMeansChangeable | DIO_PORT/Port.c:427 | `Pin_direction_change == STD_OFF` holds exactly for Pin_direction_changeable_ON |
| PortRefreshProperties.RefreshPinParts | DIO_PORT/Port.c:390-448 | one iteration raises the flag for PC0..PC3 and, when the flag was low, the pin is not PC0..PC3 and is marked _ON, writes its configured direction into GPIODIR bit Pin_Num; nothing else |
| PortRefreshProperties.RefreshPinOtherRegs | DIO_PORT/Port.c:425-448 | one iteration writes no register but GPIODIR |
| PortRefreshProperties.RefreshPinBit | DIO_PORT/Port.c:425-448 | GPIODIR bit q of port p after one iteration |
| PortRefreshProperties.RefreshLoopOtherRegs | DIO_PORT/Port.c:385-449 | the loop writes no register but GPIODIR |
| PortRefreshProperties.RefreshLoopJtag | DIO_PORT/Port.c:412-420 | after n iterations the flag is STD_HIGH exactly when it was or some descriptor is PC0..PC3 |
| PortRefreshProperties.RefreshLoopFlagHigh | DIO_PORT/Port.c:425 | once JTAG_flag is high the loop writes nothing |
| PortRefreshProperties.RefreshBitAfterStep | DIO_PORT/Port.c:385 | the reference value of a GPIODIR bit after n iterations unfolds one descriptor at a time |
| PortRefreshProperties.RefreshLoopBit | DIO_PORT/Port.c:385-449 | after n iterations each GPIODIR bit follows the reference value RefreshBitAfter |
| PortRefreshProperties.RefreshOnlyDirection | DIO_PORT/Port.c:368-450 | PORT_E_UNINIT is reported exactly before Port_Init; no register but GPIODIR, nor clock gating, status or pointer changes |
| PortRefreshProperties.RefreshJtag | DIO_PORT/Port.c:412-425 | the flag ends high exactly when it was or the table holds PC0..PC3; a flag already high means nothing is written |
| PortRefreshProperties.RefreshRestoresPin | DIO_PORT/Port.c:425-444 | descriptor i's GPIODIR bit ends as its configured direction when the loop restores it, and keeps its value otherwise |
| PortRefreshProperties.FreeBitShape | DIO_PORT/Port.c:425-444 | a GPIODIR bit some descriptor restores does not depend on its earlier value; any other keeps it |
| PortRefreshProperties.FreeBitTwice | DIO_PORT/Port.c:385-449 | the reference value of a bit applied twice equals it applied once, for any table |
| PortRefreshProperties.RefreshLoopFreeBit | DIO_PORT/Port.c:385-449 | with the flag low and no PC0..PC3 descriptor, each GPIODIR bit after n iterations is the direction of the last descriptor restoring it, or its old value; any table |
| PortRefreshProperties.RefreshLoopTwiceDir | DIO_PORT/Port.c:385-449 | with the flag low and no PC0..PC3 descriptor, a second run of the loop leaves each GPIODIR as the first run left it |
| PortRefreshProperties.RefreshLoopTwiceBlock | DIO_PORT/Port.c:385-449 | the same for each whole port block |
| PortRefreshProperties.RefreshLoopTwiceGpio | DIO_PORT/Port.c:385-449 | the same for all six port blocks |
| PortRefreshProperties.RefreshLoopTwice | DIO_PORT/Port.c:385-449 | a second run of the loop changes nothing at all, for any table |
| PortRefreshProperties.RefreshIdempotent | DIO_PORT/Port.c:368-450 | for any table, duplicates included, a repeated call reports the same errors again and changes nothing else |
| PortModeProperties.ModeTestMeansChangeable | DIO_PORT/Port.c:540 | `Pin_modeChange == STD_OFF` holds exactly for Pin_mode_changeable_ON |
| PortModeProperties.JtagTestsAgree | DIO_PORT/Port.c:566 | the numeric PC0..PC3 test picks out the same pins as the JTAG test of the other services |
| PortModeProperties.SetPinModeNoErrors | DIO_PORT/Port.c:516-545 | nothing is reported exactly when initialized, Pin in range, Mode == PORT_DIO_MODE and the descriptor says Pin_mode_changeable_OFF |
| PortModeProperties.SetPinModeErrorCases | DIO_PORT/Port.c:516-545 | each of UNINIT, PARAM_PIN, PARAM_INVALID_MODE (every Mode above 0), MODE_UNCHANGEABLE is reported exactly when its condition holds, all with Port_Set_Pin_Mode_SID |
| PortModeProperties.AnalogSelectBit | DIO_PORT/Port.c:589-592 | the ADC branch's first writes clear the pin's DEN and AFSEL bits and no other bit |
| PortModeProperties.AnalogSelectPctl | DIO_PORT/Port.c:586-599 | the ADC branch clears exactly the pin's GPIOPCTL field |
| PortModeProperties.MergeFunctionFrame | DIO_PORT/Port.c:609 | the PCTL merge writes no other register |
| PortModeProperties.AdcModeBit | DIO_PORT/Port.c:586-599 | bits after the ADC branch: DEN and AFSEL 0, AMSEL 1 |
| PortModeProperties.AltModeBit | DIO_PORT/Port.c:600-613 | bits after the other branch: AMSEL 0, AFSEL and DEN 1 |
| PortModeProperties.SetPinModeBlockBit | DIO_PORT/Port.c:572-613 | each one-bit-per-pin bit after the dispatch follows the ModeBitWrite table |
| PortModeProperties.DigitalOrAdcPctl | DIO_PORT/Port.c:572-599 | the digital and ADC branches clear exactly the pin's GPIOPCTL field |
| PortModeProperties.AltPctl | DIO_PORT/Port.c:609 | the other branch ORs `Mode & (0xF << Pin_Num*4)` into GPIOPCTL without clearing the field |
| PortModeProperties.ModeBitsUnderField | DIO_PORT/Port.c:609 | an 8-bit Mode has no bit under the PMC fields of pins 2..7 |
| PortModeProperties.DigitalOrAdcNibble | DIO_PORT/Port.c:572-599 | the digital and ADC branches leave 0 in the pin's PMC field, other fields unchanged |
| PortModeProperties.AltNibble | DIO_PORT/Port.c:600-613 | the other branch ORs field Pin_Num of Mode into the pin's PMC field, other fields unchanged |
| PortModeProperties.SetPinModeBlockNibble | DIO_PORT/Port.c:572-613 | each PMC field after the dispatch, for every mode |
| PortModeProperties.AltFunctionLostAbovePin1 | DIO_PORT/Port.c:609 | for pins 2..7 the other branch leaves GPIOPCTL unchanged |
| PortModeProperties.AltFunctionNotSelectedExample | DIO_PORT/Port.c:609 | pin 2, mode 1, cleared GPIOPCTL: the field stays 0 where `(Mode & 0xF) << 8` would give 1 |
| PortModeProperties.SetPinModeBlockLock | DIO_PORT/Port.c:572-613 | the dispatch never writes GPIOLOCK |
| PortModeProperties.SetPinModeBlockReg | DIO_PORT/Port.c:572-613 | each register after the dispatch is the reference ModeRegValue of its old value |
| PortModeProperties.ModePctlReg | DIO_PORT/Port.c:572-613 | GPIOPCTL after the dispatch agrees with ModeRegValue |
| PortModeProperties.ModeClearsBit | DIO_PORT/Port.c:572-613 | where the table clears the pin's bit the register is CLEAR_BIT of its old value |
| PortModeProperties.ModeSetsBit | DIO_PORT/Port.c:572-613 | where the table sets the pin's bit the register is SET_BIT of its old value |
| PortModeProperties.ModeKeepsReg | DIO_PORT/Port.c:572-613 | a register the table does not name keeps its value |
| PortModeProperties.ModeRegValueTwice | DIO_PORT/Port.c:572-613 | every register's write is idempotent |
| PortModeProperties.SetPinModeBlockTwice | DIO_PORT/Port.c:572-613 | the dispatch applied twice equals it applied once |
| PortModeProperties.SetPinModeWithoutWrites | DIO_PORT/Port.c:566-570 | without a readable descriptor, or for PC0..PC3, the call only reports its errors |
| PortModeProperties.SetPinModeGpio | DIO_PORT/Port.c:550-613 | otherwise only the pin's port block is replaced by the dispatch's result |
| PortModeProperties.SetPinModeWrites | DIO_PORT/Port.c:512-614 | otherwise the dispatch runs whatever was reported: only the pin's port registers change, each as ModeRegValue; the errors are appended; no other global changes |
| PortModeProperties.SetPinModeWritesBit | DIO_PORT/Port.c:572-613 | bit by bit, only the pin's bits of AMSEL, AFSEL and DEN change, as ModeBitWrite says |
| PortModeProperties.AdcModeReportedAndApplied | DIO_PORT/Port.c:532-535 | an ADC request is reported as PORT_E_PARAM_INVALID_MODE and still sets AMSEL and clears DEN and AFSEL |
| PortModeProperties.SetPinModeIdempotent | DIO_PORT/Port.c:512-614 | a repeated call reports the same errors again and changes nothing else |
| PortSequenceProperties.Step | DIO_PORT/Port.c:56-614 | any defined call of any service keeps the state well formed |
| PortSequenceProperties.Run | DIO_PORT/Port.c:56-614 | any defined sequence of calls keeps the state well formed |
| PortSequenceProperties.StepGlobals | DIO_PORT/Port.c:69-70 | only Port_Init sets the pointer and the status (always to PORT_INITIALIZED); the Det log only grows; JTAG_flag stays or becomes STD_HIGH |
| PortSequenceProperties.StepBeforeInit | DIO_PORT/Port.c:261-268 | before Port_Init every other service reports PORT_E_UNINIT and writes no register and not the flag |
| PortSequenceProperties.RunStatus | DIO_PORT/Port.c:69-70 | after a sequence the status is PORT_INITIALIZED exactly when it was or some call is Port_Init; without Port_Init the pointer is unchanged |
| PortSequenceProperties.RunMonotone | DIO_PORT/Port.c:122 | once raised JTAG_flag stays STD_HIGH; the Det log only grows |
| PortSequenceProperties.RunBeforeInit | DIO_PORT/Port.c:372-378 | calls without Port_Init on an uninitialized driver write no register and report at least one error each |

## Left out

- The GPIOLOCK/GPIOCR unlock writes (Port.c:105-112) are unreachable under the test as written; the model proves the test false and carries no model of the writes.
- PortTypes.PinConfig.Valid: the `switch` on `Port_Num` has no default, so a descriptor with `Port_Num` above 5 would use the previous base pointer; a valid descriptor has `Port_Num < 6`. It also has `Pin_Num < 8`, although Port.h declares Pin_Num a plain uint8 and Port.c never checks it: with 8 <= Pin_Num < 32 the ADC branch of Port_Init and the GPIODIR writes of Port_RefreshPortDirection are still defined C, but the PMC shifts `0x0000000F << (Pin_Num * 4)` leave 32 bits; tables with Pin_Num >= 8 are not modelled.
- Base addresses, register offsets and `volatile`: each port is an abstract block of ten registers, and the settling read `delay = SYSCTL_REGCGC2_REG` (Port.c:101) is left out because it has no effect on the modelled state.
- Det_ReportError is modelled as appending to an event log; Det's own behaviour is not part of this model.
- Where Port.c would dereference the null configuration pointer or read the table out of range (Port.c:77, 288, 307, 390, 540, 550) the behaviour is undefined; the model stops at that point and keeps the effects already made. That is why no register is written before Port_Init in this model.
- Port.c:288 names an undeclared field `Pin_direction_changeable` and an undefined `PIN_DIRECTION_CHANGEABLE_OFF`; the model reads `Pin_direction_change` and compares it with `Pin_direction_changeable_OFF`.
- Port.c:480 names an undefined `PORT_GET_VERSION_INFO_SID`; the model reports `Port_Get_Version_Info_SID`.
- Port.PortDriver.SetPinDirection: a call that reaches the GPIODIR write with 32 <= Pin < 43 shifts a 32-bit `1` by 32 or more, which C leaves undefined; the precondition SetPinDirectionDefined excludes exactly that path.
- Port.PortDriver.GetVersionInfo: with a null destination the source still writes through the pointer after reporting PORT_E_PARAM_POINTER (undefined behaviour); the model reports the error and copies nothing.
- PortSpec.InitAltBlock: `Pin_Mode << Pin_Num*4` is computed on a promoted signed `int` in C and overflows for modes 8..14 on pin 7; the model takes the 32-bit unsigned result.
- PortRegs.NibbleMask: `0x0000000F << (Pin_Num * 4)` in the PMC clears (Port.c:138, 224, 581, 595) and in `Mode & 0x0000000F << (Pin_Num * 4)` (Port.c:609) is a signed `int` shift that overflows for Pin_Num = 7; the model takes the unsigned mask 0xF0000000.
- The constants of Port_Cfg.h, Std_Types.h, Common_Macros.h and the register headers are not part of this model; their assumed values are listed above. `PORT_DEV_ERROR_DETECT` and the API switches are taken as STD_ON; the STD_OFF builds are not modelled.
- Concurrency and reentrancy: the services run one at a time.
