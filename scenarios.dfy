/**
  Clients of the driver that state, from its contracts alone, what a caller
  observes on the bus: the transactions of the crate's own tests, an injected
  transport error, and two drivers sharing one bus.
 */
module Scenarios {
  import opened Results
  import opened Ports
  import opened Addresses
  import opened Bus
  import opened Driver

  /** A single `read_inputs` at 0x24 is one write-then-read of [0x00]; the Port is the byte read. */
  method ReadInputsOnce() returns (log: seq<Transaction<()>>, r: Result<Port, ()>)
    ensures r.Ok?
    ensures log == [WriteRead(0x24, [0x00], Ok([r.value.bits]))]
  {
    var bus := new Transport<()>();
    var device := new Pca9554(bus, Addr0x24);
    r := device.ReadInputs(bus);
    log := bus.log;
    assert log == [log[0]];
    assert log[0].reply.value == [log[0].reply.value[0]];
  }

  /** A single `read_outputs` at 0x22 is one write-then-read of [0x01]. */
  method ReadOutputsOnce() returns (log: seq<Transaction<()>>, r: Result<Port, ()>)
    ensures r.Ok?
    ensures log == [WriteRead(0x22, [0x01], Ok([r.value.bits]))]
  {
    var bus := new Transport<()>();
    var device := new Pca9554(bus, Addr0x22);
    r := device.ReadOutputs(bus);
    log := bus.log;
    assert log == [log[0]];
    assert log[0].reply.value == [log[0].reply.value[0]];
  }

  /**
    With an error injected, a read and a write each hand that error back,
    after exactly one transaction each, and the driver keeps its address.
   */
  method FaultPropagates<E>(e: E, a: Address) returns (n: nat, read: Result<Port, E>, written: Result<(), E>, kept: Address)
    ensures read == Err(e) && written == Err(e)
    ensures n == 2
    ensures kept == a
  {
    var bus := new Transport<E>();
    var device := new Pca9554(bus, a);
    bus.InjectFault(e);
    read := device.ReadConfig(bus);
    bus.InjectFault(e);
    written := device.WriteConfig(bus, P03);
    n := bus.Count();
    kept := device.DeviceAddress();
  }

  /** `clear_outputs()` and `write_outputs(Port::empty())` put the same transaction on the bus. */
  method ClearIsWriteEmpty(a: Address) returns (cleared: Transaction<()>, written: Transaction<()>)
    ensures cleared == written
    ensures cleared == Write(ToByte(a), [0x01, 0x00], Ok(()))
  {
    var bus := new Transport<()>();
    var device := new Pca9554(bus, a);
    var _ := device.ClearOutputs(bus);
    cleared := bus.Last();
    var _ := device.WriteOutputs(bus, Empty);
    written := bus.Last();
  }

  /** Two drivers on one bus each address only their own chip. */
  method TwoDevicesShareBus<E>(bus: Transport<E>, first: Pca9554<E>, second: Pca9554<E>, p: Port)
    requires first.address != second.address
    modifies bus
    ensures |bus.log| == |old(bus.log)| + 2
    ensures bus.log[|old(bus.log)|].address == ToByte(first.address)
    ensures bus.log[|old(bus.log)| + 1].address == ToByte(second.address)
    ensures bus.log[|old(bus.log)|].address != bus.log[|old(bus.log)| + 1].address
  {
    var _ := first.SetInverted(bus, p);
    var _ := second.IsInverted(bus);
    ToByteInjective(first.address, second.address);
  }
}
