/** The `chip8_t` record of chip8.h as an object whose arrays are updated in
    place, with `initialize` and `emulateCycle` of chip8.c as its methods, and
    the driver of main.c.

    Each method is proved against the value-level description in module
    Machine: `View()` is the record as a `Machine` value.
 */
module Interpreter {
  import opened Opcodes
  import opened Machine

  /** `memset(a, v, sizeof a)`: every element becomes `v`. */
  method Memset<T>(a: array<T>, v: T)
    modifies a
    ensures forall k :: 0 <= k < a.Length ==> a[k] == v
  {
    var i := 0;
    while i < a.Length
      invariant 0 <= i <= a.Length
      invariant forall k :: 0 <= k < i ==> a[k] == v
    {
      a[i] := v;
      i := i + 1;
    }
  }

  /** `memcpy(&dst[at], src, |src|)`: the bytes of `src` land at `at`, every
      other byte of `dst` keeps its value. */
  method Memcpy(dst: array<Byte>, at: nat, src: seq<Byte>)
    requires at + |src| <= dst.Length
    modifies dst
    ensures dst[at..at + |src|] == src
    ensures forall k :: 0 <= k < dst.Length && !(at <= k < at + |src|) ==> dst[k] == old(dst[k])
  {
    var i := 0;
    while i < |src|
      invariant 0 <= i <= |src|
      invariant forall k :: 0 <= k < i ==> dst[at + k] == src[k]
      invariant forall k :: 0 <= k < dst.Length && !(at <= k < at + i) ==> dst[k] == old(dst[k])
    {
      dst[at + i] := src[i];
      i := i + 1;
    }
  }

  /** The two `memcpy` calls of `initialize`: the font at 0 and the planted
      program at 0x200; every other byte keeps its value. */
  method LoadLowMemory(memory: array<Byte>)
    requires memory.Length == MemorySize
    modifies memory
    ensures memory[..SpriteBytes] == Font
    ensures memory[ProgramStart..ProgramStart + 2] == HardcodedProgram
    ensures forall a :: SpriteBytes <= a < MemorySize && !(ProgramStart <= a < ProgramStart + 2) ==>
              memory[a] == old(memory[a])
  {
    Memcpy(memory, 0, Font);
    ghost var withFont := memory[..];
    Memcpy(memory, ProgramStart, HardcodedProgram);
    assert memory[..SpriteBytes] == withFont[..SpriteBytes];
  }

  class Chip8 {
    // the arrays are embedded in the record, so they never change identity
    const memory: array<Byte>
    const V: array<Byte>
    const stack: array<Word>
    const screen: array<Byte>
    const sprites: array<Byte>
    const keypad: array<Byte>
    var PC: Word
    var I: Word
    var SP: Word
    var delayTimer: Byte
    var soundTimer: Byte
    var opcode: Word

    /** The arrays have the sizes of chip8.h and do not overlap. */
    predicate Valid() {
      && memory.Length == MemorySize
      && V.Length == RegisterCount
      && stack.Length == StackDepth
      && screen.Length == ScreenWidth * ScreenHeight
      && sprites.Length == SpriteBytes
      && keypad.Length == KeypadSize
      && memory != V && memory != screen && memory != sprites && memory != keypad
      && V != screen && V != sprites && V != keypad
      && screen != sprites && screen != keypad
      && sprites != keypad
    }

    /** The record as a value. */
    ghost function View(): (m: Machine)
      reads this, memory, V, stack, screen, sprites, keypad
      ensures Valid() ==> WellSized(m)
    {
      Machine(memory[..], V[..], stack[..], screen[..], sprites[..], keypad[..],
              PC, I, SP, delayTimer, soundTimer, opcode)
    }

    /** A declared `chip8_t`: storage of the right sizes, contents as yet
        meaningless until `Initialize`. */
    constructor ()
      ensures Valid()
      ensures fresh(memory) && fresh(V) && fresh(stack) && fresh(screen)
      ensures fresh(sprites) && fresh(keypad)
    {
      memory := new Byte[MemorySize];
      V := new Byte[RegisterCount];
      stack := new Word[StackDepth];
      screen := new Byte[ScreenWidth * ScreenHeight];
      sprites := new Byte[SpriteBytes];
      keypad := new Byte[KeypadSize];
      PC, I, SP := 0, 0, 0;
      delayTimer, soundTimer, opcode := 0, 0, 0;
    }

    /** `initialize`: the reset state of Machine.Initialized; memory outside the
        font and the planted program, the keypad and the struct's own sprite
        table keep whatever they held. */
    method Initialize()
      requires Valid()
      modifies this, memory, V, stack, screen
      ensures Initialized(View())
      ensures forall a :: SpriteBytes <= a < MemorySize && !(ProgramStart <= a < ProgramStart + 2) ==>
                memory[a] == old(memory[a])
      ensures unchanged(sprites, keypad)
    {
      PC := ProgramStart;
      I := 0;
      SP := 0;
      delayTimer := 0;
      soundTimer := 0;
      opcode := 0;
      LoadLowMemory(memory);
      Memset(V, 0);
      Memset(stack, 0);
      Memset(screen, 0);
      V[0] := 0x11;
    }

    /** `emulateCycle`: fetch the word at PC into `opcode`, then run the case of
        the switch on its top nibble (Opcodes.Decode). The new record is
        Machine.Step of the old one. */
    method EmulateCycle()
      requires Valid() && CanStep(View())
      modifies this, stack
      ensures View() == Step(old(View()))
    {
      opcode := Fetch(memory[PC], memory[PC + 1]);
      match Decode(opcode)
      case Cls =>
        // a stub in the source
        PC := Next(PC);
      case Ret =>
        // a stub in the source
        PC := Next(PC);
      case Jp(nnn) =>
        PC := nnn;
      case Call(nnn) =>
        SP := SP + 1;
        stack[SP] := PC;
        PC := nnn;
      case Se(x, kk) =>
        if V[x] == kk {
          PC := Next(PC);
        }
        PC := Next(PC);
      case Sne(x, kk) =>
        if V[x] != kk {
          PC := Next(PC);
        }
        PC := Next(PC);
      case Unimplemented(_) =>
    }
  }

  /** `main`: declare a machine, initialize it and run one cycle. The planted
      word 3011 skips because V0 is 0x11, so PC ends at 0x204. */
  method Boot() returns (pc: Word, op: Word, v0: Byte)
    ensures pc == 0x204 && op == 0x3011 && v0 == 0x11
  {
    var chip8 := new Chip8();
    chip8.Initialize();
    InitializedThenStep(chip8.View());
    chip8.EmulateCycle();
    pc, op, v0 := chip8.PC, chip8.opcode, chip8.V[0];
  }
}
