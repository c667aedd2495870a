# CHIP-8 fetch-decode-execute, modelled in Dafny

This project models the core of a small CHIP-8 interpreter written in C
(`chip8.c`, `chip8.h`, driven by `main.c`). The interpreter keeps the whole
machine in one record, `chip8_t`: 4096 bytes of memory, sixteen 8-bit
registers `V0`–`VF`, a 16-slot stack of return addresses, a 64×32 screen
buffer, a 16-entry keypad, a copy of the font, and the scalars `PC`, `I`,
`SP`, two timers and the last `opcode`. The core has two functions.

- `initialize` resets the record and does four things:
  - sets the scalars (PC = 0x200, everything else 0);
  - copies the 80-byte hex font to address 0;
  - plants the two-byte program `30 11` (SE V0, 0x11) at 0x200;
  - zeroes `V`, `stack` and `screen`, then sets V0 = 0x11.
- `emulateCycle` fetches the big-endian word at PC into `opcode` and switches
  on its top nibble. Only six instructions are handled:
  - CLS (00E0) and RET (00EE) are stubs that only advance PC;
  - JP 1nnn jumps;
  - CALL 2nnn increments SP, stores PC at `stack[SP]` and jumps;
  - SE 3xkk and SNE 4xkk skip the next instruction if Vx equals (or differs from) kk.

  Every other word changes nothing but `opcode`.

The model has three modules:

- `Opcodes` (opcodes.dfy) forms a word from two bytes (`Fetch`) and decodes
  words into an `Instr` datatype that mirrors the switch (`Decode`). `Encode`
  is its inverse, and two lemmas prove the two are inverses on every word and
  on every well-formed instruction.
- `Machine` (machine.dfy) is the record as a value (`Machine`). `Step` is one
  cycle on that value, and `Execute` is the switch it runs. One lemma per
  case of the switch states its exact effect, including everything it
  leaves alone. `Initialized` describes the state after `initialize`. `Run`
  iterates `Step`, as a host loop would.
- `Interpreter` (chip8.dfy) is the record as a class, `Chip8`. Its
  fixed-size buffers are `array` fields; its scalars are mutable fields.
  - `Initialize` updates the arrays in place through `Memcpy`/`Memset` loops
    and is proved to reach `Initialized`.
  - `EmulateCycle` is proved to leave the record equal to `Step` applied to
    the old record.
  - `Boot` is `main`: it initializes, runs one cycle and is proved to end
    with PC = 0x204.

Bytes and words are the integer ranges `Byte` (0..255) and `Word` (0..65535).
The source's masks and shifts on these non-negative values become division
and remainder by powers of two. For example, `op & 0x0FFF` is `op % 0x1000`
and `hi << 8 | lo` is `hi * 0x100 + lo`. The wrap-around of the unsigned
short PC is written out as `% 0x1_0000` in `Machine.Next`.

Preconditions exclude the paths on which the C code has undefined behaviour:

- a fetch at PC = 4095 reads `memory[4096]`, so `CanStep` requires PC < 4095;
- a CALL with SP = 15 writes `stack[16]`, so CALL requires SP < 15. This also
  excludes SP = 0xFFFF, where the unsigned short `SP++` would wrap to 0 and
  `stack[0] = PC` would be defined. That state cannot be reached from
  `initialize`: SP starts at 0 and rises only through CALLs with SP < 15.

Where this interpreter departs from the usual CHIP-8 behaviour, the model
follows the code:

- Unknown opcodes are silently ignored, not reported.
- CALL stores the address of the CALL itself, not that of the next instruction.
- Nothing checks for stack overflow.
- `initialize` sets V0 = 0x11 and plants a program, instead of leaving all
  registers zero.
- The fetch does not mask PC to 12 bits.

## Model

| member | source | states |
|---|---|---|
| `Opcodes.Fetch` | chip8.c:115 | the fetched word has the byte at PC as its high byte and the byte at PC+1 as its low byte |
| `Opcodes.FetchExample` | chip8.c:56-74 | bytes A2, F0 make the word A2F0, which this interpreter leaves unexecuted |
| `Opcodes.Decode` | chip8.c:124-177 | the switch on the top nibble yields a well-formed instruction; an unrecognised word is exactly one the switch does not act on |
| `Opcodes.EncodeDecode` | chip8.c:124-177 | every 16-bit word is the encoding of the instruction it decodes to, so no field is dropped or misread |
| `Opcodes.DecodeEncode` | chip8.c:124-177 | decoding the encoding of any well-formed instruction gives it back, so the decoding is a bijection |
| `Opcodes.SourceRegisterSlot` | chip8.c:157-171 | the source's register slot `opcode & 0x0F00` is a multiple of 256 no larger than 0x0F00 |
| `Opcodes.RegisterIndex` | chip8.c:153-176 | the x nibble, in 0..15; 256 times it is the slot the source computes |
| `Opcodes.SourceSlotInRangeIffX0` | chip8.c:159 | the source's slot is a valid register index if and only if x is 0 |
| `Opcodes.SourceSlotOutOfRangeExample` | chip8.c:171 | for 3111 (SE V1, 0x11) the source reads V[0x100] |
| `Machine.Next` | chip8.h:11 | advancing PC by 2 keeps its alignment, and adds 2 unless it wraps at the top of the unsigned short |
| `Machine.NextWraps` | chip8.h:11 | PC += 2 from 0xFFFE wraps to 0 |
| `Machine.Step` | chip8.c:114-177 | a cycle keeps every array at its declared size and stores the fetched word in `opcode`; its body is the fetch followed by `Execute` |
| `Machine.Execute` | chip8.c:124-177 | no case of the switch writes memory, V, the screen, the keypad, the font copy, I, the timers or `opcode`, and every array keeps its size |
| `Machine.StepKeepsData` | chip8.c:124-177 | no instruction changes memory, V, the screen, the keypad, the font copy, I or the timers |
| `Machine.StepStub` | chip8.c:127-136 | 00E0 and 00EE add 2 to PC (mod 65536) and change nothing else but `opcode` |
| `Machine.StepJump` | chip8.c:139-144 | 1nnn sets PC = nnn and changes nothing else but `opcode` |
| `Machine.StepCall` | chip8.c:145-152 | 2nnn sets SP to SP+1, pushes the CALL's own address as the new top frame, leaves every other stack slot alone, sets PC = nnn, and changes nothing else |
| `Machine.StepSkip` | chip8.c:153-176 | 3xkk adds 4 to PC when Vx = kk and 2 otherwise; 4xkk adds 4 when Vx != kk and 2 otherwise; nothing else but `opcode` changes |
| `Machine.StepUnimplemented` | chip8.c:124-138 | any other 0nnn word, and every word with top nibble 5 to F, changes nothing but `opcode` |
| `Machine.StepKeepsSlotZero` | chip8.c:145-152 | CALL increments SP before it stores, so no cycle writes stack slot 0 |
| `Machine.InitializedHasNoFrames` | chip8.c:28-45 | right after `initialize` the stack holds no frames |
| `Machine.RunKeepsSlotZero` | chip8.c:145-152 | over any number of cycles stack slot 0 keeps its value, so it never holds a return address |
| `Machine.InitializedThenStep` | chip8.c:24-46 | after `initialize`, the first cycle runs 3011 against V0 = 0x11, skips, and ends with PC = 0x204 and nothing else changed |
| `Machine.SelfJumpStays` | chip8.c:139-144 | a JP to its own address is a fixed point: after any number of cycles PC has not moved and only `opcode` has changed |
| `Machine.JumpTo200Example` | chip8.c:139-144 | with 12 00 at 0x200 and PC = 0x200, one cycle leaves PC at 0x200 |
| `Interpreter.Memset` | chip8.c:41-43 | every element of the array becomes the given value |
| `Interpreter.Memcpy` | chip8.c:36-39 | the source bytes land at the offset; every other byte keeps its value |
| `Interpreter.LoadLowMemory` | chip8.c:5-39 | memory[0..80) is the font table, memory[0x200..0x202) is 30 11, every other byte keeps its value |
| `Interpreter.Chip8.View` | chip8.h:4-17 | a valid record has memory of 4096 bytes, 16 registers, 16 stack slots, 2048 screen bytes, 80 font bytes and 16 keypad entries |
| `Interpreter.Chip8.constructor` | chip8.h:4-17 | a declared record has arrays of the declared sizes that do not overlap |
| `Interpreter.Chip8.Initialize` | chip8.c:27-46 | the reset state: PC = 0x200, I = SP = timers = opcode = 0, the font at 0, 30 11 at 0x200, V zero except V0 = 0x11, stack and screen zero; other memory, the keypad and the font field are untouched |
| `Interpreter.Chip8.EmulateCycle` | chip8.c:114-194 | the record after the cycle is `Machine.Step` of the record before it |
| `Interpreter.Boot` | main.c:3-29 | initialize followed by one cycle ends with PC = 0x204, opcode = 3011 and V0 = 0x11 |

## Left out

- The `printf` tracing in `emulateCycle` is left out: it is console output with no effect on the state.
- The commented-out emulation loop, graphics and input hooks of main.c are left out: only `Machine.Run` stands for repeating cycles, to state `SelfJumpStays`.
- The prototypes `loadGame`, `setupGraphics`, `setupInput`, `setKeys` and `drawGraphics` are left out: they have no implementation.
- The rest of the CHIP-8 instruction set is left out, because this interpreter does not have it. That covers timers, keypad tests, DRW, BCD, arithmetic, and a real CLS or RET.
- The undefined-behaviour paths are excluded by preconditions, not modelled:
  - a fetch at PC = 4095 (`CanStep`);
  - CALL with SP = 15.
- SE/SNE with x != 0 read `V[x]` in the model, not the source's out-of-range `V[x * 256]`; see Findings.
- Interpreter.Chip8.constructor: a C `chip8_t` declared on the stack holds indeterminate bytes, while Dafny arrays start zeroed. The constructor promises only the sizes, so nothing proved depends on those initial contents.
- Machine.Step: its own contract states only the sizes and the stored opcode. What each instruction does is stated by the `Step*` lemmas, and `EmulateCycle` is tied to `Step` as a whole.

## Findings

| source | as written | input that shows it | evidently intended | confidence | as-written member | corrected member |
|---|---|---|---|---|---|---|
| chip8.c:159, chip8.c:171 | SE and SNE read `V[opcode & 0x0F00]`, which keeps the x nibble in bits 8–11 | opcode 3111 (SE V1, 0x11) reads `V[0x100]`, past the 16-entry array | read `V[(opcode & 0x0F00) >> 8]`, the register named by the x nibble | not executed; high | `Opcodes.SourceRegisterSlot`, `Opcodes.SourceSlotOutOfRangeExample` | `Opcodes.RegisterIndex` |
