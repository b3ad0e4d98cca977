/**
  The eight bus addresses a PCA9554 can be strapped to with its three
  address pins, and the fallible conversion from a raw byte.
 */
module Addresses {
  import opened Results
  import opened Ports

  /** A valid 7-bit strap address of the chip. */
  datatype Address =
    | Addr0x20 | Addr0x21 | Addr0x22 | Addr0x23
    | Addr0x24 | Addr0x25 | Addr0x26 | Addr0x27

  /** The numeric value of an address (`address as u8`). */
  function ToByte(a: Address): (v: byte)
    ensures 0x20 <= v <= 0x27
  {
    match a
    case Addr0x20 => 0x20
    case Addr0x21 => 0x21
    case Addr0x22 => 0x22
    case Addr0x23 => 0x23
    case Addr0x24 => 0x24
    case Addr0x25 => 0x25
    case Addr0x26 => 0x26
    case Addr0x27 => 0x27
  }

  /** Decodes a byte into an address; every byte outside 0x20..0x27 is refused with `Err(())`. */
  function TryFrom(v: byte): (r: Result<Address, ()>)
    ensures r.Ok? <==> 0x20 <= v <= 0x27
    ensures r.Ok? ==> ToByte(r.value) == v
    ensures r.Err? ==> r == Err(())
  {
    match v
    case 0x20 => Ok(Addr0x20)
    case 0x21 => Ok(Addr0x21)
    case 0x22 => Ok(Addr0x22)
    case 0x23 => Ok(Addr0x23)
    case 0x24 => Ok(Addr0x24)
    case 0x25 => Ok(Addr0x25)
    case 0x26 => Ok(Addr0x26)
    case 0x27 => Ok(Addr0x27)
    case _ => Err(())
  }

  /** Decoding the numeric value of an address gives that address back. */
  lemma TryFromToByte(a: Address)
    ensures TryFrom(ToByte(a)) == Ok(a)
  {
  }

  /** Distinct addresses have distinct numeric values on the bus. */
  lemma ToByteInjective(a: Address, b: Address)
    ensures ToByte(a) == ToByte(b) ==> a == b
  {
  }
}
