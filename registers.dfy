/**
  The register map of the PCA9554. Only the first four registers have driver
  operations; the others are offsets of the extended register set.
 */
module Registers {
  import opened Ports

  /** A register of the chip, selected by its one-byte offset. */
  datatype Register =
    | InputPort
    | OutputPort
    | PolarityInversion
    | ConfigPort
    | OutputDrive0
    | OutputDrive1
    | InputLatch
    | PullUpDownEnable
    | PullUpDownSelect
    | InterruptMask
    | InterruptStatus
    | OutputPortConfig

  /** The offset byte the chip expects for a register (`reg as u8`). */
  function Offset(reg: Register): (v: byte)
    ensures v <= 0x03 <==> reg in {InputPort, OutputPort, PolarityInversion, ConfigPort}
    ensures v > 0x03 ==> 0x40 <= v <= 0x4F
  {
    match reg
    case InputPort => 0x00
    case OutputPort => 0x01
    case PolarityInversion => 0x02
    case ConfigPort => 0x03
    case OutputDrive0 => 0x40
    case OutputDrive1 => 0x41
    case InputLatch => 0x42
    case PullUpDownEnable => 0x43
    case PullUpDownSelect => 0x44
    case InterruptMask => 0x45
    case InterruptStatus => 0x46
    case OutputPortConfig => 0x4F
  }

  /** No two registers share an offset, so an offset names one register. */
  lemma OffsetInjective(r: Register, s: Register)
    ensures Offset(r) == Offset(s) ==> r == s
  {
  }
}
