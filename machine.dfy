/** The CHIP-8 machine state of chip8.h as a value, and the effect of one
    `emulateCycle` of chip8.c on it.

    `Step` is the specification the in-place `Chip8.EmulateCycle` is proved
    against; the lemmas here state what one cycle, or several, do.
 */
module Machine {
  import opened Opcodes

  const MemorySize := 4096
  const RegisterCount := 16
  const StackDepth := 16
  const ScreenWidth := 64
  const ScreenHeight := 32
  const KeypadSize := 16
  const SpriteBytes := 80

  /** The hex font `initialize` copies to address 0: the glyphs 0 to F, five
      rows of four pixels each. */
  const Font: seq<Byte> := [
    0xf0, 0x90, 0x90, 0x90, 0xf0, // 0
    0x20, 0x60, 0x20, 0x20, 0x70, // 1
    0xf0, 0x10, 0xf0, 0x80, 0xf0, // 2
    0xf0, 0x10, 0xf0, 0x10, 0xf0, // 3
    0x90, 0x90, 0xf0, 0x10, 0x10, // 4
    0xf0, 0x80, 0xf0, 0x10, 0x40, // 5
    0xf0, 0x80, 0xf0, 0x90, 0xf0, // 6
    0xf0, 0x10, 0x20, 0x40, 0x40, // 7
    0xf0, 0x90, 0xf0, 0x90, 0xf0, // 8
    0xf0, 0x90, 0xf0, 0x10, 0xf0, // 9
    0xf0, 0x90, 0xf0, 0x90, 0x90, // A
    0xe0, 0x90, 0xe0, 0x90, 0xe0, // B
    0xf0, 0x80, 0x80, 0x80, 0xf0, // C
    0xe0, 0x90, 0x90, 0x90, 0xe0, // D
    0xf0, 0x80, 0xf0, 0x80, 0xf0, // E
    0xf0, 0x80, 0xf0, 0x80, 0x80  // F
  ]

  /** The program `initialize` plants at 0x200: the single word 3011, SE V0, 0x11. */
  const ProgramStart: Word := 0x200
  const HardcodedProgram: seq<Byte> := [0x30, 0x11]

  /** The `chip8_t` record, field by field. */
  datatype Machine = Machine(
    memory: seq<Byte>,
    V: seq<Byte>,
    stack: seq<Word>,
    screen: seq<Byte>,
    sprites: seq<Byte>,
    keypad: seq<Byte>,
    PC: Word,
    I: Word,
    SP: Word,
    delayTimer: Byte,
    soundTimer: Byte,
    opcode: Word)

  /** Every array field has the length chip8.h gives it. */
  predicate WellSized(m: Machine) {
    && |m.memory| == MemorySize
    && |m.V| == RegisterCount
    && |m.stack| == StackDepth
    && |m.screen| == ScreenWidth * ScreenHeight
    && |m.sprites| == SpriteBytes
    && |m.keypad| == KeypadSize
  }

  /** The word at PC; `memory[PC+1]` exists only below the last address. */
  function FetchAt(m: Machine): Word
    requires WellSized(m) && m.PC < MemorySize - 1
  {
    Fetch(m.memory[m.PC], m.memory[m.PC + 1])
  }

  /** One cycle is defined: the fetch stays inside memory, and a CALL, which
      increments SP before it writes `stack[SP]`, does not write past the stack. */
  predicate CanStep(m: Machine) {
    && WellSized(m)
    && m.PC < MemorySize - 1
    && (Decode(FetchAt(m)).Call? ==> m.SP < StackDepth - 1)
  }

  /** The return addresses on the call stack. CALL increments SP before it
      stores, so slot 0 is never written and the frames are slots 1 to SP. */
  function Frames(m: Machine): (f: seq<Word>)
    requires WellSized(m) && m.SP < StackDepth
    ensures |f| == m.SP
    ensures forall k :: 0 <= k < |f| ==> f[k] == m.stack[k + 1]
  {
    m.stack[1..m.SP + 1]
  }

  /** The address of the next instruction in sequence; PC is an unsigned short,
      so this wraps modulo 65536. It keeps PC's alignment, and below the top of
      the address space it is two bytes further on. */
  function Next(pc: Word): (r: Word)
    ensures r % 2 == pc % 2
    ensures pc < 0xFFFE ==> r == pc + 2
  {
    (pc + 2) % 0x1_0000
  }

  /** PC += 2 on 0xFFFE wraps to 0. */
  lemma NextWraps()
    ensures Next(0xFFFE) == 0
  {
  }

  /** One `emulateCycle`: store the fetched word in `opcode`, then act on it.
      What each instruction does is stated by the Step lemmas below. */
  function Step(m: Machine): (r: Machine)
    requires CanStep(m)
    ensures WellSized(r)
    ensures r.opcode == FetchAt(m)
  {
    Execute(m.(opcode := FetchAt(m)))
  }

  /** The switch of `emulateCycle` on the word already stored in `opcode`.
      No case writes memory, the registers, the screen, the keypad, the font
      copy, I, the timers or `opcode` itself. */
  function Execute(m: Machine): (r: Machine)
    requires WellSized(m)
    requires Decode(m.opcode).Call? ==> m.SP < StackDepth - 1
    ensures WellSized(r)
    ensures r.memory == m.memory && r.V == m.V && r.screen == m.screen
    ensures r.keypad == m.keypad && r.sprites == m.sprites
    ensures r.I == m.I && r.delayTimer == m.delayTimer && r.soundTimer == m.soundTimer
    ensures r.opcode == m.opcode
  {
    match Decode(m.opcode)
    case Cls => m.(PC := Next(m.PC))
    case Ret => m.(PC := Next(m.PC))
    case Jp(nnn) => m.(PC := nnn)
    case Call(nnn) =>
      var sp := m.SP + 1;
      m.(SP := sp, stack := m.stack[sp := m.PC], PC := nnn)
    case Se(x, kk) => m.(PC := if m.V[x] == kk then Next(Next(m.PC)) else Next(m.PC))
    case Sne(x, kk) => m.(PC := if m.V[x] != kk then Next(Next(m.PC)) else Next(m.PC))
    case Unimplemented(_) => m
  }

  /** No instruction here touches memory, the registers, the screen, the
      keypad, the font copy, I or the timers. */
  lemma StepKeepsData(m: Machine)
    requires CanStep(m)
    ensures var r := Step(m);
      && r.memory == m.memory && r.V == m.V && r.screen == m.screen
      && r.keypad == m.keypad && r.sprites == m.sprites
      && r.I == m.I && r.delayTimer == m.delayTimer && r.soundTimer == m.soundTimer
  {
  }

  /** The CLS and RET stubs only move on to the next instruction. */
  lemma StepStub(m: Machine)
    requires CanStep(m) && (FetchAt(m) == 0x00E0 || FetchAt(m) == 0x00EE)
    ensures var r := Step(m);
      r == m.(opcode := FetchAt(m), PC := (m.PC + 2) % 0x1_0000)
  {
    assert Decode(0x00E0) == Cls && Decode(0x00EE) == Ret;
  }

  /** JP nnn sets PC to nnn and leaves the stack alone. */
  lemma StepJump(m: Machine)
    requires CanStep(m) && TopNibble(FetchAt(m)) == 1
    ensures var r := Step(m);
      r == m.(opcode := FetchAt(m), PC := FetchAt(m) % 0x1000)
  {
  }

  /** CALL nnn pushes the address of the CALL itself as a new frame, leaves
      every other stack slot alone and jumps to nnn. */
  lemma StepCall(m: Machine)
    requires CanStep(m) && TopNibble(FetchAt(m)) == 2
    ensures var r := Step(m);
      && r.SP == m.SP + 1
      && Frames(r) == Frames(m) + [m.PC]
      && (forall k :: 0 <= k < StackDepth && k != r.SP ==> r.stack[k] == m.stack[k])
      && r.PC == FetchAt(m) % 0x1000
      && r == m.(opcode := FetchAt(m), SP := r.SP, stack := r.stack, PC := r.PC)
  {
  }

  /** SE Vx, kk skips the next instruction when Vx equals kk, SNE when it does
      not; neither touches a register or the stack. */
  lemma StepSkip(m: Machine)
    requires CanStep(m) && (TopNibble(FetchAt(m)) == 3 || TopNibble(FetchAt(m)) == 4)
    ensures var op := FetchAt(m);
      var equal := m.V[op / 0x100 % 0x10] == op % 0x100;
      var skip := if TopNibble(op) == 3 then equal else !equal;
      Step(m) == m.(opcode := op, PC := (m.PC + if skip then 4 else 2) % 0x1_0000)
  {
  }

  /** Every other word changes nothing but `opcode`. */
  lemma StepUnimplemented(m: Machine)
    requires CanStep(m) && IsUnimplemented(FetchAt(m))
    ensures Step(m) == m.(opcode := FetchAt(m))
  {
  }

  /** The state `initialize` leaves: scalars zero except PC, the font at 0,
      the hard-coded program at 0x200, V, stack and screen zero except V0 = 0x11. */
  predicate Initialized(m: Machine) {
    && WellSized(m)
    && m.PC == ProgramStart && m.I == 0 && m.SP == 0
    && m.delayTimer == 0 && m.soundTimer == 0 && m.opcode == 0
    && m.memory[..SpriteBytes] == Font
    && m.memory[ProgramStart..ProgramStart + 2] == HardcodedProgram
    && m.V[0] == 0x11
    && (forall r :: 1 <= r < RegisterCount ==> m.V[r] == 0)
    && (forall k :: 0 <= k < StackDepth ==> m.stack[k] == 0)
    && (forall p :: 0 <= p < ScreenWidth * ScreenHeight ==> m.screen[p] == 0)
  }

  /** The program `initialize` plants compares V0 with 0x11, which it also
      sets, so the first cycle skips: PC ends at 0x204 and nothing else but
      `opcode` changes. */
  lemma InitializedThenStep(m: Machine)
    requires Initialized(m)
    ensures CanStep(m)
    ensures Step(m) == m.(PC := 0x204, opcode := 0x3011)
  {
    assert m.memory[0x200] == 0x30 && m.memory[0x201] == 0x11;
    assert FetchAt(m) == 0x3011;
    assert Decode(0x3011) == Se(0, 0x11);
  }

  /** CALL increments SP before it stores, so no cycle writes stack slot 0. */
  lemma StepKeepsSlotZero(m: Machine)
    requires CanStep(m)
    ensures Step(m).stack[0] == m.stack[0]
  {
  }

  /** Right after `initialize` the call stack holds no frames. */
  lemma InitializedHasNoFrames(m: Machine)
    requires Initialized(m)
    ensures Frames(m) == []
  {
  }

  /** `n` cycles from `m`, as a host loop around `emulateCycle` would run them;
      `None` when some cycle on the way is not defined. */
  function Run(m: Machine, n: nat): Option<Machine>
    decreases n
  {
    if n == 0 then Some(m)
    else if CanStep(m) then Run(Step(m), n - 1)
    else None
  }

  datatype Option<T> = None | Some(value: T)

  /** The word at PC is a JP to PC itself. */
  predicate JumpsToSelf(m: Machine) {
    && WellSized(m)
    && m.PC < MemorySize - 1
    && FetchAt(m) == 0x1000 + m.PC
  }

  /** A jump to itself is a fixed point of the cycle: however many cycles run,
      PC never drifts and nothing but `opcode` changes. */
  lemma {:induction false} SelfJumpStays(m: Machine, n: nat)
    requires JumpsToSelf(m)
    ensures Run(m, n) == Some(if n == 0 then m else m.(opcode := 0x1000 + m.PC))
    decreases n
  {
    if n > 0 {
      var op := 0x1000 + m.PC;
      assert Decode(op) == Jp(m.PC);
      var next := Step(m);
      assert next == m.(opcode := op);
      SelfJumpStays(next, n - 1);
    }
  }

  /** However many cycles run, stack slot 0 keeps the value it had; after
      `initialize` it stays 0, so it never holds a return address. */
  lemma {:induction false} RunKeepsSlotZero(m: Machine, n: nat)
    requires WellSized(m)
    ensures Run(m, n).Some? ==> WellSized(Run(m, n).value) && Run(m, n).value.stack[0] == m.stack[0]
    decreases n
  {
    if n > 0 && CanStep(m) {
      StepKeepsSlotZero(m);
      RunKeepsSlotZero(Step(m), n - 1);
    }
  }

  /** The JP example: a machine whose word at 0x200 is 1200 stays at 0x200. */
  lemma JumpTo200Example(m: Machine)
    requires WellSized(m) && m.PC == 0x200
    requires m.memory[0x200] == 0x12 && m.memory[0x201] == 0x00
    ensures CanStep(m) && Step(m).PC == 0x200 && Step(m).opcode == 0x1200
  {
    assert FetchAt(m) == 0x1200;
  }
}
