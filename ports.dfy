/**
  The `Port` bit-flag set of the PCA9554: one flag per expander pin, pin i
  being bit i of a byte. Every one of the 256 byte values is a valid Port,
  which is why reading a register never fails to decode.
 */
module Ports {

  /** A byte as it travels on the bus. */
  type byte = bv8

  /** A pin number of the expander, P00 to P07. */
  type Pin = i: int | 0 <= i < 8

  /** A set of pins, held as the byte the chip's registers use. */
  datatype Port = Port(bits: byte)

  const P00: Port := Port(0x01)
  const P01: Port := Port(0x02)
  const P02: Port := Port(0x04)
  const P03: Port := Port(0x08)
  const P04: Port := Port(0x10)
  const P05: Port := Port(0x20)
  const P06: Port := Port(0x40)
  const P07: Port := Port(0x80)

  /** The Port with every pin clear (`Port::empty()`). */
  const Empty: Port := Port(0x00)

  /** The named single-pin flag for pin i. */
  function Flag(i: Pin): (p: Port)
    ensures p.bits == (1 as byte) << i
  {
    if i == 0 then P00
    else if i == 1 then P01
    else if i == 2 then P02
    else if i == 3 then P03
    else if i == 4 then P04
    else if i == 5 then P05
    else if i == 6 then P06
    else P07
  }

  /** Reinterprets a raw register byte as a Port, unchecked: no byte is refused. */
  function FromBits(b: byte): Port
  {
    Port(b)
  }

  /** The byte a write sends for this Port. */
  function Bits(p: Port): byte
  {
    p.bits
  }

  /** Whether pin i is set in p. */
  predicate Contains(p: Port, i: Pin)
  {
    p.bits & Flag(i).bits != 0
  }

  /** Whether every flag of `other` is set in p (`p.contains(other)`). */
  predicate ContainsAll(p: Port, other: Port)
  {
    p.bits & other.bits == other.bits
  }

  /** The union of two flag sets (`a | b`). */
  function Union(a: Port, b: Port): Port
  {
    Port(a.bits | b.bits)
  }

  /** The flags named in a list, combined with `|` from left to right. */
  function Combine(pins: seq<Pin>): Port
  {
    if pins == [] then Empty else Union(Combine(pins[..|pins| - 1]), Flag(pins[|pins| - 1]))
  }

  /** The pins that are set: the abstract view of a Port. */
  function Pins(p: Port): set<Pin>
  {
    set i: Pin | 0 <= i < 8 && Contains(p, i)
  }

  /** Decoding a byte and encoding it again gives the byte back, and the other way round. */
  lemma BitsRoundTrip(b: byte, p: Port)
    ensures Bits(FromBits(b)) == b
    ensures FromBits(Bits(p)) == p
  {
  }

  /** Pin i is set exactly when bit i of the byte is one. */
  lemma ContainsIsBit(p: Port, i: Pin)
    ensures Contains(p, i) <==> (p.bits >> i) & 1 == 1
  {
  }

  /** No pin is set in the empty Port. */
  lemma PinsOfEmpty()
    ensures Pins(Empty) == {}
  {
  }

  /** The named flag for pin i holds pin i and no other. */
  lemma PinsOfFlag(i: Pin)
    ensures Pins(Flag(i)) == {i}
  {
  }

  /** Bitwise or of two Ports is the union of their pin sets. */
  lemma PinsOfUnion(a: Port, b: Port)
    ensures Pins(Union(a, b)) == Pins(a) + Pins(b)
  {
    forall j: Pin | 0 <= j < 8
      ensures Contains(Union(a, b), j) <==> Contains(a, j) || Contains(b, j)
    {
    }
  }

  /** The pins set by a combination of flags are exactly the pins named. */
  lemma {:induction false} PinsOfCombine(pins: seq<Pin>)
    ensures Pins(Combine(pins)) == set k | k in pins
  {
    if pins == [] {
      PinsOfEmpty();
    } else {
      var init, last := pins[..|pins| - 1], pins[|pins| - 1];
      assert pins == init + [last];
      PinsOfCombine(init);
      PinsOfUnion(Combine(init), Flag(last));
      PinsOfFlag(last);
    }
  }

  /** A Port is determined by the pins it sets: every bit pattern is one pin map. */
  lemma PinsDetermine(p: Port, q: Port)
    requires Pins(p) == Pins(q)
    ensures p == q
  {
    assert forall i: Pin :: 0 <= i < 8 ==> (Contains(p, i) <==> i in Pins(p));
    assert forall i: Pin :: 0 <= i < 8 ==> (Contains(q, i) <==> i in Pins(q));
    assert Contains(p, 0) == Contains(q, 0) && Contains(p, 1) == Contains(q, 1);
    assert Contains(p, 2) == Contains(q, 2) && Contains(p, 3) == Contains(q, 3);
    assert Contains(p, 4) == Contains(q, 4) && Contains(p, 5) == Contains(q, 5);
    assert Contains(p, 6) == Contains(q, 6) && Contains(p, 7) == Contains(q, 7);
  }

  /** `p.contains(q)` holds exactly when every pin of q is a pin of p. */
  lemma ContainsAllIsSubset(p: Port, q: Port)
    ensures ContainsAll(p, q) <==> Pins(q) <= Pins(p)
  {
    if Pins(q) <= Pins(p) {
      SubsetAt(p, q, 0);
      SubsetAt(p, q, 1);
      SubsetAt(p, q, 2);
      SubsetAt(p, q, 3);
      SubsetAt(p, q, 4);
      SubsetAt(p, q, 5);
      SubsetAt(p, q, 6);
      SubsetAt(p, q, 7);
    }
  }

  /** Pin i of q is set in p once every pin of q is a pin of p. */
  lemma SubsetAt(p: Port, q: Port, i: Pin)
    requires Pins(q) <= Pins(p)
    ensures Contains(q, i) ==> Contains(p, i)
  {
    if Contains(q, i) {
      assert i in Pins(q);
    }
  }

  /** For a single flag, `p.contains(P0i)` is the one-pin test. */
  lemma ContainsAllOfFlag(p: Port, i: Pin)
    ensures ContainsAll(p, Flag(i)) <==> Contains(p, i)
  {
  }

  /** Response bytes decode to the Ports the driver's tests expect. */
  lemma DecodeExamples()
    ensures FromBits(0x01) == P00
    ensures FromBits(0x00) == Empty
    ensures FromBits(0xAA) == Combine([1, 3, 5, 7])
    ensures Pins(FromBits(0xAA)) == {1, 3, 5, 7}
  {
    forall j: Pin | 0 <= j < 8
      ensures Contains(FromBits(0xAA), j) <==> j in {1, 3, 5, 7}
    {
    }
    PinsOfCombine([1, 3, 5, 7]);
    assert (set k | k in [1, 3, 5, 7]) == {1, 3, 5, 7};
    PinsDetermine(FromBits(0xAA), Combine([1, 3, 5, 7]));
  }
}
