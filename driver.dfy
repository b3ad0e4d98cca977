/**
  The PCA9554 driver. A driver instance holds only the chip's bus address;
  the transport is handed to every call, so several drivers can share one bus.
  Each public operation is one read or one write of one fixed register, and
  performs exactly one bus transaction:
    - a read of register R writes the single byte [R] and reads one byte back,
      which is taken bit for bit as a Port;
    - a write of register R with Port P writes the two bytes [R, P].
  A transport error is handed back unchanged, without retry.
 */
module Driver {
  import opened Results
  import opened Ports
  import opened Addresses
  import opened Registers
  import opened Bus

  class Pca9554<E> {
    /** The chip's strap address, fixed for the life of the driver. */
    const address: Address

    /** Binds a driver to `address`; the transport is only used to fix its type. */
    constructor (bus: Transport<E>, address: Address)
      ensures this.address == address
    {
      this.address := address;
    }

    /** The address the driver was created with. */
    function DeviceAddress(): (a: Address)
      ensures a == address
    {
      address
    }

    /**
      `log` is `log0` with one write-then-read appended: to this chip, with the
      one-byte request [offset]. The transport failed exactly when a fault was
      injected, and then `r` is its error; otherwise the reply is one byte and
      `r` is that byte as a Port.
     */
    ghost predicate ReadTransaction(log0: seq<Transaction<E>>, fault0: Option<E>, log: seq<Transaction<E>>,
                                    offset: byte, r: Result<Port, E>)
    {
      && |log| == |log0| + 1
      && log[..|log0|] == log0
      && var t := log[|log0|];
      && t.WriteRead?
      && t.address == ToByte(address)
      && t.request == [offset]
      && (fault0.Some? ==> t.reply == Err(fault0.value))
      && (fault0.None? ==> t.reply.Ok?)
      && match t.reply
         case Ok(bytes) => |bytes| == 1 && r == Ok(FromBits(bytes[0]))
         case Err(e) => r == Err(e)
    }

    /**
      `log` is `log0` with one write appended: to this chip, of exactly `bytes`.
      `r` is the injected fault's error if there was one, and success otherwise.
     */
    ghost predicate WriteTransaction(log0: seq<Transaction<E>>, fault0: Option<E>, log: seq<Transaction<E>>,
                                     bytes: seq<byte>, r: Result<(), E>)
    {
      && r == (if fault0.Some? then Err(fault0.value) else Ok(()))
      && log == log0 + [Transaction.Write(ToByte(address), bytes, r)]
    }

    /** Reads register `reg` into a one-byte buffer and reinterprets it as a Port. */
    method Read(bus: Transport<E>, reg: Register) returns (r: Result<Port, E>)
      modifies bus
      ensures ReadTransaction(old(bus.log), old(bus.fault), bus.log, Offset(reg), r)
      ensures bus.fault == None
    {
      var buffer := new byte[1];
      var res := bus.WriteReadBytes(ToByte(address), [Offset(reg)], buffer);
      if res.Ok? {
        r := Ok(FromBits(buffer[0]));
      } else {
        r := Err(res.error);
      }
    }

    /** Writes `port` to register `reg` as the two bytes [offset, bits]. */
    method Write(bus: Transport<E>, reg: Register, port: Port) returns (r: Result<(), E>)
      modifies bus
      ensures WriteTransaction(old(bus.log), old(bus.fault), bus.log, [Offset(reg), Bits(port)], r)
      ensures bus.fault == None
    {
      var buffer := [Offset(reg), Bits(port)];
      r := bus.WriteBytes(ToByte(address), buffer);
    }

    /** Reads the logic levels of all pins, whatever their direction (register 0x00). */
    method ReadInputs(bus: Transport<E>) returns (r: Result<Port, E>)
      modifies bus
      ensures ReadTransaction(old(bus.log), old(bus.fault), bus.log, 0x00, r)
      ensures bus.fault == None
    {
      r := Read(bus, InputPort);
    }

    /** Reads the output flip-flops, not the pin levels (register 0x01). */
    method ReadOutputs(bus: Transport<E>) returns (r: Result<Port, E>)
      modifies bus
      ensures ReadTransaction(old(bus.log), old(bus.fault), bus.log, 0x01, r)
      ensures bus.fault == None
    {
      r := Read(bus, OutputPort);
    }

    /** Sets the output state of the pins configured as outputs (register 0x01). */
    method WriteOutputs(bus: Transport<E>, output: Port) returns (r: Result<(), E>)
      modifies bus
      ensures WriteTransaction(old(bus.log), old(bus.fault), bus.log, [0x01, output.bits], r)
      ensures bus.fault == None
    {
      r := Write(bus, OutputPort, output);
    }

    /** Sets every output low: the same transaction as writing the empty Port to 0x01. */
    method ClearOutputs(bus: Transport<E>) returns (r: Result<(), E>)
      modifies bus
      ensures WriteTransaction(old(bus.log), old(bus.fault), bus.log, [0x01, 0x00], r)
      ensures WriteTransaction(old(bus.log), old(bus.fault), bus.log, [0x01, Empty.bits], r)
      ensures bus.fault == None
    {
      r := Write(bus, OutputPort, Empty);
    }

    /** Sets pin directions: 1 is an input, 0 an output (register 0x03). */
    method WriteConfig(bus: Transport<E>, config: Port) returns (r: Result<(), E>)
      modifies bus
      ensures WriteTransaction(old(bus.log), old(bus.fault), bus.log, [0x03, config.bits], r)
      ensures bus.fault == None
    {
      r := Write(bus, ConfigPort, config);
    }

    /** Reads pin directions: 1 is an input, 0 an output (register 0x03). */
    method ReadConfig(bus: Transport<E>) returns (r: Result<Port, E>)
      modifies bus
      ensures ReadTransaction(old(bus.log), old(bus.fault), bus.log, 0x03, r)
      ensures bus.fault == None
    {
      r := Read(bus, ConfigPort);
    }

    /** Sets which input pins have their polarity inverted (register 0x02). */
    method SetInverted(bus: Transport<E>, invert: Port) returns (r: Result<(), E>)
      modifies bus
      ensures WriteTransaction(old(bus.log), old(bus.fault), bus.log, [0x02, invert.bits], r)
      ensures bus.fault == None
    {
      r := Write(bus, PolarityInversion, invert);
    }

    /** Reads which input pins have their polarity inverted (register 0x02). */
    method IsInverted(bus: Transport<E>) returns (r: Result<Port, E>)
      modifies bus
      ensures ReadTransaction(old(bus.log), old(bus.fault), bus.log, 0x02, r)
      ensures bus.fault == None
    {
      r := Read(bus, PolarityInversion);
    }
  }
}
