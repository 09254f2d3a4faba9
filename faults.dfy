/** Decoding of the fault-status register into six independent flags. */
module Faults {
  import opened Bits

  const FAULT_HIGHTHRESH: Byte := 0x80
  const FAULT_LOWTHRESH: Byte := 0x40
  const FAULT_REFINLOW: Byte := 0x20
  const FAULT_REFINHIGH: Byte := 0x10
  const FAULT_RTDINLOW: Byte := 0x08
  const FAULT_OVUV: Byte := 0x04

  /** The bits of the fault byte that carry a flag. */
  const FAULT_BITS: Byte := 0xFC

  datatype Fault = Fault(highThresh: bool, lowThresh: bool, refInLow: bool,
                         refInHigh: bool, rtdInLow: bool, ovuv: bool)

  /** `bool(int)`: zero is false, anything else true. */
  function AsBool(value: Byte): bool
  {
    value != 0
  }

  /** `getFault`'s decoding of the raw fault byte. */
  function DecodeFault(raw: Byte): (f: Fault)
    ensures f.highThresh <==> raw & FAULT_HIGHTHRESH != 0
    ensures f.lowThresh <==> raw & FAULT_LOWTHRESH != 0
    ensures f.refInLow <==> raw & FAULT_REFINLOW != 0
    ensures f.refInHigh <==> raw & FAULT_REFINHIGH != 0
    ensures f.rtdInLow <==> raw & FAULT_RTDINLOW != 0
    ensures f.ovuv <==> raw & FAULT_OVUV != 0
  {
    Fault(AsBool(raw & FAULT_HIGHTHRESH), AsBool(raw & FAULT_LOWTHRESH),
          AsBool(raw & FAULT_REFINLOW), AsBool(raw & FAULT_REFINHIGH),
          AsBool(raw & FAULT_RTDINLOW), AsBool(raw & FAULT_OVUV))
  }

  /** The fault byte that carries exactly the given flags (an inverse of the
      decoder, used to state what it keeps and what it drops). */
  function EncodeFault(f: Fault): (raw: Byte)
    ensures raw & !FAULT_BITS == 0
  {
    (if f.highThresh then FAULT_HIGHTHRESH else 0) | (if f.lowThresh then FAULT_LOWTHRESH else 0) |
    (if f.refInLow then FAULT_REFINLOW else 0) | (if f.refInHigh then FAULT_REFINHIGH else 0) |
    (if f.rtdInLow then FAULT_RTDINLOW else 0) | (if f.ovuv then FAULT_OVUV else 0)
  }

  /** Every fault report is the decoding of some byte. */
  lemma DecodeEncode(f: Fault)
    ensures DecodeFault(EncodeFault(f)) == f
  {
  }

  /** Decoding keeps the six flag bits and nothing else. */
  lemma EncodeDecode(raw: Byte)
    ensures EncodeFault(DecodeFault(raw)) == raw & FAULT_BITS
  {
  }

  /** Two bytes decode alike exactly when they agree on the six flag bits;
      bits 0x02 and 0x01 have no effect. */
  lemma DecodeSameIff(a: Byte, b: Byte)
    ensures DecodeFault(a) == DecodeFault(b) <==> a & FAULT_BITS == b & FAULT_BITS
  {
    if DecodeFault(a) == DecodeFault(b) {
      EncodeDecode(a);
      EncodeDecode(b);
    }
  }

  lemma NoFaultByte()
    ensures DecodeFault(0x00) == Fault(false, false, false, false, false, false)
  {
  }

  lemma AllFaultsByte()
    ensures DecodeFault(0xFC) == Fault(true, true, true, true, true, true)
  {
  }
}
