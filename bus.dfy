/**
  The bus transport the driver talks to, in place of a real I2C controller:
  it offers the two capabilities the driver needs (an addressed write, and an
  addressed write followed by a read) and keeps a log of every transaction it
  performs. A test can inject an error that the next transaction reports.
  Without one, every transaction succeeds; what the device answers to a read
  is not known in advance, so the response bytes are arbitrary.
 */
module Bus {
  import opened Results
  import opened Ports

  /** One bus transaction, as observed on the wire, with what the transport reported. */
  datatype Transaction<E> =
    | Write(address: byte, bytes: seq<byte>, outcome: Result<(), E>)
    | WriteRead(address: byte, request: seq<byte>, reply: Result<seq<byte>, E>)

  /** A transport that records what it is asked to do. */
  class Transport<E> {
    /** Every transaction performed so far, oldest first. */
    var log: seq<Transaction<E>>
    /** The error the next transaction reports, if one was injected. */
    var fault: Option<E>

    constructor ()
      ensures log == [] && fault == None
    {
      log := [];
      fault := None;
    }

    /** Makes the next transaction fail with `e`. */
    method InjectFault(e: E)
      modifies this
      ensures fault == Some(e) && log == old(log)
    {
      fault := Some(e);
    }

    /** The most recent transaction. */
    function Last(): Transaction<E>
      reads this
      requires log != []
    {
      log[|log| - 1]
    }

    /** The number of transactions performed so far. */
    function Count(): nat
      reads this
    {
      |log|
    }

    /** Writes `bytes` to the device at `address`. */
    method WriteBytes(address: byte, bytes: seq<byte>) returns (r: Result<(), E>)
      modifies this
      ensures log == old(log) + [Write(address, bytes, r)]
      ensures r == if old(fault).Some? then Err(old(fault).value) else Ok(())
      ensures fault == None
    {
      r := if fault.Some? then Err(fault.value) else Ok(());
      log := log + [Write(address, bytes, r)];
      fault := None;
    }

    /**
      Writes `request` to the device at `address`, then reads `buffer.Length`
      bytes back into `buffer`. On failure the buffer's contents are unspecified.
     */
    method WriteReadBytes(address: byte, request: seq<byte>, buffer: array<byte>) returns (r: Result<(), E>)
      modifies this, buffer
      ensures |log| == |old(log)| + 1 && log[..|old(log)|] == old(log)
      ensures Last().WriteRead? && Last().address == address && Last().request == request
      ensures old(fault).Some? ==> Last().reply == Err(old(fault).value)
      ensures old(fault).None? ==> Last().reply.Ok?
      ensures Last().reply.Ok? ==> r == Ok(()) && buffer[..] == Last().reply.value
      ensures Last().reply.Err? ==> r == Err(Last().reply.error)
      ensures fault == None
    {
      var reply: Result<seq<byte>, E>;
      if fault.Some? {
        reply := Err(fault.value);
        r := Err(fault.value);
      } else {
        assert |buffer[..]| == buffer.Length;
        var response: seq<byte> :| |response| == buffer.Length;
        forall i | 0 <= i < buffer.Length {
          buffer[i] := response[i];
        }
        reply := Ok(response);
        r := Ok(());
      }
      log := log + [WriteRead(address, request, reply)];
      fault := None;
    }
  }
}
