/** The instruction set of the machine.  Every instruction is one 16-bit word:
    bits 13..15 hold the opcode and bits 0..12 the fields of that opcode's
    layout.  Opcodes 0..6 are ALPHA, CMP, BRAC, BRA, DRAW, MOVE and END; the
    value 7 names no layout.  Bits that a layout marks reserved are never read. */
module Encodings {

  type Word = bv16

  /** A decoded instruction.  The field types carry the field widths: a
      letter is 8 bits wide, a branch address 12 bits wide, a flag one bit. */
  datatype Instr =
    | Alpha(letter: bv8)                           // opcode 0
    | Cmp(letter: bv8, blank: bool, oring: bool)   // opcode 1
    | Brac(addr: bv12, eq: bool)                   // opcode 2
    | Bra(addr: bv12)                              // opcode 3
    | Draw(letter: bv8, blank: bool)               // opcode 4
    | Move(left: bool)                             // opcode 5
    | End(halt: bool)                              // opcode 6
    | Unknown                                      // opcode 7

  function Opcode(i: Instr): bv3 {
    match i
    case Alpha(_) => 0
    case Cmp(_, _, _) => 1
    case Brac(_, _) => 2
    case Bra(_) => 3
    case Draw(_, _) => 4
    case Move(_) => 5
    case End(_) => 6
    case Unknown => 7
  }

  /** The opcode field shared by every layout: bits 13..15. */
  function OpcodeField(w: Word): bv3 {
    (w >> 13) as bv3
  }

  /** The bits that the layout of opcode `op` declares reserved: never the
      opcode bits, and all 13 others only for the unnamed opcode 7. */
  function ReservedMask(op: bv3): (m: Word)
    ensures m & 0xE000 == 0
    ensures m == 0x1FFF <==> op == 7
  {
    match op
    case 0 => 0x1F00  // ALPHA: bits 8..12
    case 1 => 0x0700  // CMP: bits 8..10
    case 2 => 0x0000  // BRAC: none
    case 3 => 0x1000  // BRA: bit 12
    case 4 => 0x0F00  // DRAW: bits 8..11
    case 5 => 0x0FFF  // MOVE: bits 0..11
    case 6 => 0x0FFF  // END: bits 0..11
    case _ => 0x1FFF  // no layout: nothing below the opcode is read
  }

  /** Reading a word through the bit-field layout its opcode selects:
      a letter in bits 0..7, an address in bits 0..11, CMP's `blank` in
      bit 11 and every other flag in bit 12. */
  function Decode(w: Word): (i: Instr)
    ensures Opcode(i) == OpcodeField(w)
  {
    var letter := (w & 0x00FF) as bv8;
    var addr := (w & 0x0FFF) as bv12;
    var bit11 := w & 0x0800 != 0;
    var bit12 := w & 0x1000 != 0;
    match (w >> 13) as bv3
    case 0 => Alpha(letter)
    case 1 => Cmp(letter, bit11, bit12)
    case 2 => Brac(addr, bit12)
    case 3 => Bra(addr)
    case 4 => Draw(letter, bit12)
    case 5 => Move(bit12)
    case 6 => End(bit12)
    case _ => Unknown
  }

  /** Writing an instruction's fields into the layout of its opcode. */
  function Encode(i: Instr): (w: Word)
    ensures OpcodeField(w) == Opcode(i)
    ensures w & ReservedMask(Opcode(i)) == 0
  {
    var op := (Opcode(i) as Word) << 13;
    match i
    case Alpha(l) => op | l as Word
    case Cmp(l, b, o) => op | (if o then 0x1000 else 0) | (if b then 0x0800 else 0) | l as Word
    case Brac(a, e) => op | (if e then 0x1000 else 0) | a as Word
    case Bra(a) => op | a as Word
    case Draw(l, b) => op | (if b then 0x1000 else 0) | l as Word
    case Move(left) => op | (if left then 0x1000 else 0)
    case End(h) => op | (if h then 0x1000 else 0)
    case Unknown => op
  }

  /** Encoding then decoding gives back every instruction. */
  lemma DecodeEncode(i: Instr)
    ensures Decode(Encode(i)) == i
  {
    match i
    case Alpha(l) =>
    case Cmp(l, b, o) =>
    case Brac(a, e) =>
    case Bra(a) =>
    case Draw(l, b) =>
    case Move(left) =>
    case End(h) =>
    case Unknown =>
  }

  /** Decoding then encoding clears exactly the reserved bits of the word,
      so a word survives the round trip exactly when those bits are zero. */
  lemma EncodeDecode(w: Word)
    ensures Encode(Decode(w)) == w & !ReservedMask(OpcodeField(w))
    ensures Encode(Decode(w)) == w <==> w & ReservedMask(OpcodeField(w)) == 0
  {
    match OpcodeField(w)
    case 0 => EncodeDecodeAlpha(w);
    case 1 => EncodeDecodeCmp(w);
    case 2 => EncodeDecodeBrac(w);
    case 3 => EncodeDecodeBra(w);
    case 4 => EncodeDecodeDraw(w);
    case 5 => EncodeDecodeMove(w);
    case 6 => EncodeDecodeEnd(w);
    case 7 => EncodeDecodeUnknown(w);
  }

  // The round trip one layout at a time: each is a small bit-vector
  // problem on its own, all eight together are not.

  lemma EncodeDecodeAlpha(w: Word)
    requires w >> 13 == 0
    ensures Encode(Decode(w)) == w & !ReservedMask(OpcodeField(w))
    ensures Encode(Decode(w)) == w <==> w & ReservedMask(OpcodeField(w)) == 0
  {
  }

  lemma EncodeDecodeCmp(w: Word)
    requires w >> 13 == 1
    ensures Encode(Decode(w)) == w & !ReservedMask(OpcodeField(w))
    ensures Encode(Decode(w)) == w <==> w & ReservedMask(OpcodeField(w)) == 0
  {
  }

  lemma EncodeDecodeBrac(w: Word)
    requires w >> 13 == 2
    ensures Encode(Decode(w)) == w & !ReservedMask(OpcodeField(w))
    ensures Encode(Decode(w)) == w <==> w & ReservedMask(OpcodeField(w)) == 0
  {
  }

  lemma EncodeDecodeBra(w: Word)
    requires w >> 13 == 3
    ensures Encode(Decode(w)) == w & !ReservedMask(OpcodeField(w))
    ensures Encode(Decode(w)) == w <==> w & ReservedMask(OpcodeField(w)) == 0
  {
  }

  lemma EncodeDecodeDraw(w: Word)
    requires w >> 13 == 4
    ensures Encode(Decode(w)) == w & !ReservedMask(OpcodeField(w))
    ensures Encode(Decode(w)) == w <==> w & ReservedMask(OpcodeField(w)) == 0
  {
  }

  lemma EncodeDecodeMove(w: Word)
    requires w >> 13 == 5
    ensures Encode(Decode(w)) == w & !ReservedMask(OpcodeField(w))
    ensures Encode(Decode(w)) == w <==> w & ReservedMask(OpcodeField(w)) == 0
  {
  }

  lemma EncodeDecodeEnd(w: Word)
    requires w >> 13 == 6
    ensures Encode(Decode(w)) == w & !ReservedMask(OpcodeField(w))
    ensures Encode(Decode(w)) == w <==> w & ReservedMask(OpcodeField(w)) == 0
  {
  }

  lemma EncodeDecodeUnknown(w: Word)
    requires w >> 13 == 7
    ensures Encode(Decode(w)) == w & !ReservedMask(OpcodeField(w))
    ensures Encode(Decode(w)) == w <==> w & ReservedMask(OpcodeField(w)) == 0
  {
  }

  // Where each field sits.  The round trips above cannot tell two fields
  // of the same width apart; these lemmas pin every field of every layout
  // to its bits, whatever the values of the other fields.

  /** ALPHA: the letter in bits 0..7. */
  lemma AlphaBits(l: bv8)
    ensures Decode(0x0000 | l as Word) == Alpha(l)
  {
  }

  /** CMP: the letter in bits 0..7, `blank` in bit 11, `oring` in bit 12. */
  lemma CmpBits(l: bv8, b: bool, o: bool)
    ensures Decode(0x2000 | (if o then 0x1000 else 0) | (if b then 0x0800 else 0) | l as Word) == Cmp(l, b, o)
  {
  }

  /** BRAC: the address in bits 0..11, `eq` in bit 12. */
  lemma BracBits(a: bv12, e: bool)
    ensures Decode(0x4000 | (if e then 0x1000 else 0) | a as Word) == Brac(a, e)
  {
  }

  /** BRA: the address in bits 0..11. */
  lemma BraBits(a: bv12)
    ensures Decode(0x6000 | a as Word) == Bra(a)
  {
  }

  /** DRAW: the letter in bits 0..7, `blank` in bit 12. */
  lemma DrawBits(l: bv8, b: bool)
    ensures Decode(0x8000 | (if b then 0x1000 else 0) | l as Word) == Draw(l, b)
  {
  }

  /** MOVE: `left` in bit 12. */
  lemma MoveBits(left: bool)
    ensures Decode(0xA000 | (if left then 0x1000 else 0)) == Move(left)
  {
  }

  /** END: `halt` in bit 12. */
  lemma EndBits(h: bool)
    ensures Decode(0xC000 | (if h then 0x1000 else 0)) == End(h)
  {
  }

  /** Words that differ only in the reserved bits of their common opcode
      decode to the same instruction. */
  lemma DecodeIgnoresReserved(w: Word, v: Word)
    requires OpcodeField(w) == OpcodeField(v)
    requires w & !ReservedMask(OpcodeField(w)) == v & !ReservedMask(OpcodeField(w))
    ensures Decode(w) == Decode(v)
  {
    EncodeDecode(w);
    EncodeDecode(v);
    DecodeEncode(Decode(w));
    DecodeEncode(Decode(v));
  }
}
