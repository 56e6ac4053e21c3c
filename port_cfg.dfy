/*
 * Constants the driver takes from Port_Cfg.h, Std_Types.h and the register
 * headers. Those files are not part of this model; the values below are the
 * assumptions under which it is stated. Std_Types.h values are the AUTOSAR
 * standard ones (STD_HIGH = 1, STD_LOW = 0, STD_ON = 1, STD_OFF = 0).
 */
module PortCfg {

  type uint8 = bv8

  const STD_HIGH: uint8 := 1
  const STD_LOW: uint8 := 0
  const STD_ON: uint8 := 1
  const STD_OFF: uint8 := 0

  /** Number of descriptors in the configuration set (all 43 GPIO pins of the part). */
  const PORT_CONFIGURED_PINS: nat := 43

  /** Mode numbers: plain digital I/O, analog (ADC), and the alternate functions strictly between. */
  const PORT_DIO_MODE: uint8 := 0
  const PORT_ALTERNATE_FUNCTION_ADC_MODE: uint8 := 15

  const PORT_A: uint8 := 0
  const PORT_B: uint8 := 1
  const PORT_C: uint8 := 2
  const PORT_D: uint8 := 3
  const PORT_E: uint8 := 4
  const PORT_F: uint8 := 5

  /** The commit-protected pins PF0 and PD7. */
  const NMI_PIN1: uint8 := 0
  const NMI_PIN2: uint8 := 7

  /** The JTAG/SWD pins PC0..PC3. */
  const JTAG_PIN1: uint8 := 0
  const JTAG_PIN2: uint8 := 1
  const JTAG_PIN3: uint8 := 2
  const JTAG_PIN4: uint8 := 3

  /** Key that unlocks the GPIOCR register when written to GPIOLOCK. */
  const UNLOCK_VALUE: bv32 := 0x4C4F434B
}
