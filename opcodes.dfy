/** Fetching and decoding of CHIP-8 opcodes, as `emulateCycle` in chip8.c does it.

    An opcode is a 16-bit word built from two consecutive memory bytes, most
    significant byte first. The interpreter dispatches on its top nibble and
    knows only six instructions; every other word is left unexecuted.

    Bytes and words are integers in range. The source's masks and shifts on
    these non-negative values are written as division and remainder by powers
    of two: `op & 0x0FFF` is `op % 0x1000`, `op & 0xF000` is `op / 0x1000 * 0x1000`,
    `hi << 8 | lo` is `hi * 0x100 + lo`.
 */
module Opcodes {

  /** `unsigned char` */
  type Byte = b: int | 0 <= b < 0x100
  /** `unsigned short` */
  type Word = w: int | 0 <= w < 0x1_0000
  type Nibble = n: int | 0 <= n < 0x10
  /** The 12-bit address field `nnn`. */
  type Address = a: int | 0 <= a < 0x1000

  /** `op & 0xF000`, shifted down: the nibble the switch dispatches on. */
  function TopNibble(op: Word): Nibble { op / 0x1000 }

  /** `op & 0x0FFF`: the address field. */
  function AddressField(op: Word): Address { op % 0x1000 }

  /** `op & 0x00FF`: the byte field `kk`. */
  function ByteField(op: Word): Byte { op % 0x100 }

  /** The opcode made of the byte at PC (`hi`) and the byte at PC+1 (`lo`);
      its high byte is `hi` and its low byte is `lo`. */
  function Fetch(hi: Byte, lo: Byte): (op: Word)
    ensures op / 0x100 == hi && ByteField(op) == lo
  {
    hi * 0x100 + lo
  }

  /** The register slot the source reads for `3xkk`/`4xkk`: `opcode & 0x0F00`,
      which keeps the x nibble in place instead of shifting it down. */
  function SourceRegisterSlot(op: Word): (slot: int)
    ensures 0 <= slot <= 0x0F00 && slot % 0x100 == 0
  {
    op / 0x100 % 0x10 * 0x100
  }

  /** The register the `3xkk`/`4xkk` instructions mean: the x nibble.
      Scaled by 256 it is the slot the source computes. */
  function RegisterIndex(op: Word): (x: Nibble)
    ensures x * 0x100 == SourceRegisterSlot(op)
  {
    op / 0x100 % 0x10
  }

  /** The source's register slot addresses one of the 16 registers exactly when
      the x nibble is 0; for every other x it is past the end of `V`. */
  lemma SourceSlotInRangeIffX0(op: Word)
    ensures SourceRegisterSlot(op) < 0x10 <==> RegisterIndex(op) == 0
  {
  }

  /** `SE V1, 0x11` makes the source read `V[0x100]`, 240 bytes past `V`. */
  lemma SourceSlotOutOfRangeExample()
    ensures RegisterIndex(0x3111) == 1 && SourceRegisterSlot(0x3111) == 0x100
  {
  }

  /** The instructions `emulateCycle` tells apart. */
  datatype Instr =
    | Cls                         // 00E0, a stub: only advances PC
    | Ret                         // 00EE, a stub: only advances PC
    | Jp(nnn: Address)            // 1nnn
    | Call(nnn: Address)          // 2nnn
    | Se(x: Nibble, kk: Byte)     // 3xkk, skip if Vx == kk
    | Sne(x: Nibble, kk: Byte)    // 4xkk, skip if Vx != kk
    | Unimplemented(op: Word)     // every other word: the switch does nothing

  /** The words the switch in `emulateCycle` does not act on: a top nibble of 0
      other than 00E0 and 00EE, and every top nibble from 5 to F. */
  predicate IsUnimplemented(op: Word) {
    (TopNibble(op) == 0 && op != 0x00E0 && op != 0x00EE) || TopNibble(op) >= 5
  }

  predicate WellFormed(i: Instr) {
    i.Unimplemented? ==> IsUnimplemented(i.op)
  }

  /** The opcode word of an instruction. */
  function Encode(i: Instr): Word {
    match i
    case Cls => 0x00E0
    case Ret => 0x00EE
    case Jp(nnn) => 0x1000 + nnn
    case Call(nnn) => 0x2000 + nnn
    case Se(x, kk) => 0x3000 + x * 0x100 + kk
    case Sne(x, kk) => 0x4000 + x * 0x100 + kk
    case Unimplemented(op) => op
  }

  /** The switch of `emulateCycle` on `opcode & 0xF000`, with the fields each
      case uses. */
  function Decode(op: Word): (i: Instr)
    ensures WellFormed(i)
  {
    match TopNibble(op)
    case 0 =>
      if op == 0x00E0 then Cls
      else if op == 0x00EE then Ret
      else Unimplemented(op)
    case 1 => Jp(AddressField(op))
    case 2 => Call(AddressField(op))
    case 3 => Se(RegisterIndex(op), ByteField(op))
    case 4 => Sne(RegisterIndex(op), ByteField(op))
    case _ => Unimplemented(op)
  }

  /** Every word decodes to the one instruction whose encoding it is: no word
      is lost or read with the wrong fields. */
  lemma EncodeDecode(op: Word)
    ensures Encode(Decode(op)) == op
  {
  }

  /** Decoding undoes encoding, so with EncodeDecode, Decode is a bijection
      between 16-bit words and well-formed instructions. */
  lemma DecodeEncode(i: Instr)
    requires WellFormed(i)
    ensures Decode(Encode(i)) == i
  {
  }

  /** The fetch example of chip8.c's comments: bytes A2, F0 make A2F0, a word
      this interpreter does not execute. */
  lemma FetchExample()
    ensures Fetch(0xA2, 0xF0) == 0xA2F0
    ensures Decode(Fetch(0xA2, 0xF0)) == Unimplemented(0xA2F0)
  {
  }
}
