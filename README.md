# PCA9554 I/O-expander driver, modelled in Dafny

This project models `pca9554-rs`, a driver for the TI PCA9554 8-bit I2C I/O
expander. The driver has three parts, and the model keeps all three:

- **Port** (`ports.dfy`, module `Ports`). A bit-flag set with one flag per pin.
  Pin i is bit i of a byte (`P00` = `0x01` … `P07` = `0x80`). Every byte is a
  valid Port. `Pins(p)` is the abstract view: the set of pins that are set.
  The lemmas prove that this view is exact. A named flag is a singleton, the
  empty Port is the empty set, `|` is set union, and two Ports with the same
  pins are equal. A response byte such as `0xAA` therefore decodes to exactly
  `P01 | P03 | P05 | P07`.
- **Address and Register** (`addresses.dfy`, `registers.dfy`). `Address` is the
  closed enumeration of the eight strap addresses `0x20`–`0x27`. `TryFrom`
  accepts exactly those bytes and returns `Err(())` for every other byte.
  `Register` holds the twelve register offsets.
- **Driver** (`driver.dfy`, class `Driver.Pca9554`). A driver stores one
  `Address` and nothing else. The transport is passed in on every call. The
  private `Read` and `Write` primitives each perform exactly one transaction:
  - a read writes `[reg]` and reads one byte into a one-byte buffer;
  - a write sends the two bytes `[reg, bits]`.

  The eight public operations each bind one primitive to one fixed register.
  Their contracts name the literal offset (`0x00`–`0x03`) and the exact log
  entry the call appends. A transport error comes back unchanged.

The I2C bus (`bus.dfy`, class `Bus.Transport`) is modelled as a transport
that logs every transaction. Each log entry records:

- the target address;
- the bytes written;
- what the transport reported (for a write-then-read, the bytes read back).

A client can inject an error, and the next transaction reports that error.
With no error injected, a transaction succeeds. The bytes a device returns are
chosen arbitrarily, so every read contract holds for any answer from the chip.

`scenarios.dfy` holds clients of the driver. They restate the crate's unit
tests and the cross-cutting properties, using only the driver's contracts as
proof: error propagation, `clear_outputs` against `write_outputs(empty)`, and
two drivers sharing one bus.

The byte-to-address conversion is the source's `TryFrom<u8>` impl
(src/lib.rs:130-145), whose error type is `()`; the model's `TryFrom` returns
`Result<Address, ()>`.

## Model

| member | source | states |
|---|---|---|
| `Ports.Flag` | src/lib.rs:12-23 | the named flag for pin i is the single bit `1 << i` |
| `Ports.BitsRoundTrip` | src/lib.rs:45-56 | decoding a raw byte (`from_bits_unchecked`) and encoding it again (`bits`) is the identity in both directions, with no byte refused |
| `Ports.ContainsIsBit` | src/lib.rs:12-23 | pin i is set in a Port exactly when bit i of its byte is one |
| `Ports.PinsOfEmpty` | src/lib.rs:79-84 | `Port::empty()` sets no pin |
| `Ports.PinsOfFlag` | src/lib.rs:12-23 | each flag `P0i` sets pin i and no other pin |
| `Ports.PinsOfUnion` | src/lib.rs:211-214 | `a \| b` sets exactly the pins of `a` together with those of `b` |
| `Ports.PinsOfCombine` | src/lib.rs:211-214 | any `\|`-combination of named flags sets exactly the pins named (by induction on the list) |
| `Ports.ContainsAllIsSubset` | src/lib.rs:12-23 | bitflags' `p.contains(q)` holds exactly when every pin of `q` is a pin of `p` |
| `Ports.ContainsAllOfFlag` | src/lib.rs:12-23 | for a single flag, `p.contains(P0i)` is the one-pin test `Contains(p, i)` |
| `Ports.PinsDetermine` | src/lib.rs:12-23 | a Port is determined by its set of pins: all 256 bytes are distinct pin maps |
| `Ports.DecodeExamples` | src/lib.rs:169-220 | response byte `0x01` decodes to `P00`, `0x00` to `Port::empty()`, `0xAA` to `P01 \| P03 \| P05 \| P07`, that is to pins {1, 3, 5, 7} |
| `Addresses.ToByte` | src/lib.rs:115-128 | every address's numeric value lies in `0x20..0x27` |
| `Addresses.TryFrom` | src/lib.rs:130-145 | returns `Ok` exactly when `0x20 <= v <= 0x27`, with the variant whose value is `v`, and `Err(())` for every other byte |
| `Addresses.TryFromToByte` | src/lib.rs:117-145 | round trip: `try_from(a as u8) == Ok(a)` for every address |
| `Addresses.ToByteInjective` | src/lib.rs:119-128 | distinct addresses have distinct bus values |
| `Registers.Offset` | src/lib.rs:147-162 | the four registers with operations have offsets at most `0x03`, and every other register lies in `0x40..0x4F` |
| `Registers.OffsetInjective` | src/lib.rs:147-162 | no two registers share an offset |
| `Bus.Transport.WriteBytes` | src/lib.rs:55 | an addressed write appends one `Write` entry with the exact bytes, and fails with the injected error if there is one |
| `Bus.Transport.WriteReadBytes` | src/lib.rs:46-48 | an addressed write-then-read appends one `WriteRead` entry, fills the caller's buffer in place with the reply on success, and fails with the injected error if there is one |
| `Driver.Pca9554.constructor` | src/lib.rs:33-38 | a new driver holds the given address and nothing from the transport |
| `Driver.Pca9554.DeviceAddress` | src/lib.rs:40-42 | `address()` returns the address given to `new` |
| `Driver.Pca9554.Read` | src/lib.rs:44-49 | exactly one write-then-read to the driver's address with request `[reg]`; on success the result is the single reply byte as a Port, and on failure it is the transport's error unchanged |
| `Driver.Pca9554.Write` | src/lib.rs:51-56 | exactly one write to the driver's address of `[reg, port.bits]`; the result is the transport's outcome unchanged |
| `Driver.Pca9554.ReadInputs` | src/lib.rs:58-62 | one read transaction with request `[0x00]` |
| `Driver.Pca9554.ReadOutputs` | src/lib.rs:64-69 | one read transaction with request `[0x01]` |
| `Driver.Pca9554.WriteOutputs` | src/lib.rs:71-77 | one write transaction of `[0x01, output.bits]` |
| `Driver.Pca9554.ClearOutputs` | src/lib.rs:79-84 | one write transaction of `[0x01, 0x00]`, the same as writing `Port::empty()` |
| `Driver.Pca9554.WriteConfig` | src/lib.rs:86-90 | one write transaction of `[0x03, config.bits]` |
| `Driver.Pca9554.ReadConfig` | src/lib.rs:92-96 | one read transaction with request `[0x03]` |
| `Driver.Pca9554.SetInverted` | src/lib.rs:98-104 | one write transaction of `[0x02, invert.bits]` |
| `Driver.Pca9554.IsInverted` | src/lib.rs:106-112 | one read transaction with request `[0x02]` |
| `Scenarios.ReadInputsOnce` | src/lib.rs:169-183 | `read_inputs` at `0x24` puts exactly `write_read(0x24, [0x00], [b])` on the bus and returns `b` as a Port |
| `Scenarios.ReadOutputsOnce` | src/lib.rs:202-220 | `read_outputs` at `0x22` puts exactly `write_read(0x22, [0x01], [b])` on the bus and returns `b` as a Port |
| `Scenarios.FaultPropagates` | src/lib.rs:45-56 | an injected transport error comes back as the result of a read and of a write, with one transaction per call, and the driver's address is unchanged |
| `Scenarios.ClearIsWriteEmpty` | src/lib.rs:79-84 | `clear_outputs()` and `write_outputs(Port::empty())` log the identical transaction `[0x01, 0x00]` |
| `Scenarios.TwoDevicesShareBus` | src/lib.rs:24-56 | two drivers with different addresses on one bus each target only their own address |

## Left out

- The real I2C bus and the `embedded_hal` `Write` and `WriteRead` traits. These are foreign calls. `Bus.Transport` replaces them with a logging transport that fails only when an error has been injected.
- Timing, bus arbitration and concurrency. The driver does not handle these; they belong to the transport.
- `embedded_hal_mock` internals. In particular, the model does not cover how the mock treats a response vector longer than the buffer (the two-byte responses at src/lib.rs:188 and src/lib.rs:205). The model's transport fills exactly the buffer it is given.
- The set algebra that the `bitflags` macro generates. The model keeps only `empty`, the eight named flags, `|` and `contains` (both the multi-flag `ContainsAll` and the one-pin `Contains`). It leaves out intersection, complement, difference, symmetric difference, `all`, the checked `from_bits` and the formatting traits, because these are library code that the driver does not use.
- The extended registers `0x40`–`0x4F`. They have no operations, so the model has only their offsets.
- `PhantomData` and the transport type parameter `T`. The model has one transport class, generic over its error type `E`. `from_bits_unchecked`, `to_le_bytes` and `from_le_bytes` on a single byte are identities, and the model writes them as such.
- The derived `Copy` and `Clone` impls. Dafny datatypes are values, so these have no counterpart.
