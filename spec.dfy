/**
 * Value semantics of the CHIP-8 interpreter in pkg/cpu.go.
 *
 * The whole processor state is one `Machine` value and every operation of the
 * interpreter is a function on it.  Go's fixed-width unsigned arithmetic is
 * written out with `Wrap8`/`Wrap16`; the index-out-of-range panics of the Go
 * code become `Failure` results carrying a `Fault`.  The class `CHIP8` in
 * cpu.dfy is proved to implement these functions.
 */
module Chip8Spec {

  // ---------------------------------------------------------------------------
  // Sizes and constants of the machine
  // ---------------------------------------------------------------------------

  const MemorySize := 4096
  const ProgramStart := 0x200
  const MaxProgramSize := MemorySize - ProgramStart
  const StackSize := 16
  const RegisterCount := 16
  const DisplayWidth := 64
  const DisplaySize := 64 * 32
  const KeyCount := 16
  /** VF, the register used as carry, borrow and collision flag. */
  const Flag := 0xF
  /** Every sprite row is one byte, eight pixels wide. */
  const SpriteWidth := 8

  type Byte = b: int | 0 <= b < 0x100
  type Word = w: int | 0 <= w < 0x1_0000
  type Reg = r: int | 0 <= r < 16
  type Nibble = n: int | 0 <= n < 0x10
  type Addr = a: int | 0 <= a < 0x1000

  type Memory = s: seq<Byte> | |s| == MemorySize witness seq(MemorySize, _ => 0)
  type Stack = s: seq<Word> | |s| == StackSize witness seq(StackSize, _ => 0)
  type Registers = s: seq<Byte> | |s| == RegisterCount witness seq(RegisterCount, _ => 0)
  type Display = s: seq<Byte> | |s| == DisplaySize witness seq(DisplaySize, _ => 0)
  type Keys = s: seq<Byte> | |s| == KeyCount witness seq(KeyCount, _ => 0)

  /** The 16 hexadecimal digit glyphs, five rows of four pixels each. */
  const FontSet: seq<Byte> := [
    0xF0, 0x90, 0x90, 0x90, 0xF0, // 0
    0x20, 0x60, 0x20, 0x20, 0x70, // 1
    0xF0, 0x10, 0xF0, 0x80, 0xF0, // 2
    0xF0, 0x10, 0xF0, 0x10, 0xF0, // 3
    0x90, 0x90, 0xF0, 0x10, 0x10, // 4
    0xF0, 0x80, 0xF0, 0x10, 0xF0, // 5
    0xF0, 0x80, 0xF0, 0x90, 0xF0, // 6
    0xF0, 0x10, 0x20, 0x40, 0x40, // 7
    0xF0, 0x90, 0xF0, 0x90, 0xF0, // 8
    0xF0, 0x90, 0xF0, 0x10, 0xF0, // 9
    0xF0, 0x90, 0xF0, 0x90, 0x90, // A
    0xE0, 0x90, 0xE0, 0x90, 0xE0, // B
    0xF0, 0x80, 0x80, 0x80, 0xF0, // C
    0xE0, 0x90, 0x90, 0x90, 0xE0, // D
    0xF0, 0x80, 0xF0, 0x80, 0xF0, // E
    0xF0, 0x80, 0xF0, 0x80, 0x80  // F
  ]
  const GlyphSize := 5

  /** The state held by the Go struct CHIP8. */
  datatype Machine = Machine(
    opcode: Word,
    memory: Memory,
    stack: Stack,
    v: Registers,
    i: Word,
    pc: Word,
    sp: Byte,
    display: Display,
    drawScreen: bool,
    delayTimer: Byte,
    soundTimer: Byte,
    keys: Keys)

  datatype Option<T> = None | Some(value: T)

  datatype Result<T, E> = Success(value: T) | Failure(error: E) {
    predicate IsFailure() { Failure? }
    function PropagateFailure<U>(): Result<U, E>
      requires Failure?
    {
      Failure(error)
    }
    function Extract(): T
      requires Success?
    {
      value
    }
  }

  /** The index-out-of-range panics a cycle of the Go code can raise. */
  datatype Fault =
    | FetchOutOfRange    // memory[pc] or memory[pc+1] outside memory
    | StackOverflow      // CALL with a full stack, or RET with sp beyond the stack
    | StackUnderflow     // RET with an empty stack (sp wraps to 255)
    | SpriteOutOfRange   // DRW reading memory or writing the display out of range
    | KeyOutOfRange      // SKP/SKNP with Vx naming no key
    | MemoryOutOfRange   // LD B / LD [I] / LD Vx,[I] outside memory

  datatype LoadError = ProgramTooLarge

  // ---------------------------------------------------------------------------
  // Fixed-width arithmetic
  // ---------------------------------------------------------------------------

  /** uint8 wrap-around. Dafny's % is Euclidean, so negative z wraps too. */
  function Wrap8(z: int): Byte { z % 0x100 }

  /** uint16 wrap-around. */
  function Wrap16(z: int): Word { z % 0x1_0000 }

  function BitOr(a: Byte, b: Byte): Byte { ((a as bv8) | (b as bv8)) as int }
  function BitAnd(a: Byte, b: Byte): Byte { ((a as bv8) & (b as bv8)) as int }
  function BitXor(a: Byte, b: Byte): Byte { ((a as bv8) ^ (b as bv8)) as int }

  /** `cell ^ 1` of a display cell, written arithmetically. */
  function Flip(cell: Byte): Byte
  {
    if cell % 2 == 0 then cell + 1 else cell - 1
  }

  function Zeros(n: nat): (s: seq<Byte>)
    ensures |s| == n && forall k :: 0 <= k < n ==> s[k] == 0
  {
    seq(n, _ => 0)
  }

  // ---------------------------------------------------------------------------
  // Fetch and decode
  // ---------------------------------------------------------------------------

  /** The two bytes at pc, big-endian (cpu.go reads memory[pc] and memory[pc+1]). */
  function Fetch(m: Machine): (r: Result<Word, Fault>)
    ensures r.Success? <==> m.pc + 1 < MemorySize
    ensures r.Failure? ==> r.error == FetchOutOfRange
    ensures r.Success? ==>
      r.value / 0x100 == m.memory[m.pc] && r.value % 0x100 == m.memory[m.pc + 1]
  {
    if m.pc < MemorySize && Wrap16(m.pc + 1) < MemorySize then
      Success(m.memory[m.pc] as int * 0x100 + m.memory[Wrap16(m.pc + 1)])
    else
      Failure(FetchOutOfRange)
  }

  /** Fields of an instruction word (opcode & 0xF000, 0x0F00, 0x00F0, 0x000F, 0x00FF, 0x0FFF). */
  function Family(op: Word): Nibble { op / 0x1000 }
  function RegX(op: Word): Reg { (op / 0x100) % 0x10 }
  function RegY(op: Word): Reg { (op / 0x10) % 0x10 }
  function LowNibble(op: Word): Nibble { op % 0x10 }
  function LowByte(op: Word): Byte { op % 0x100 }
  function Address(op: Word): Addr { op % 0x1000 }

  /** The instructions cpu.go recognises, named after their mnemonics. */
  datatype Instr =
    | Cls                              // 00E0
    | Ret                              // 00EE
    | Jp(nnn: Addr)                    // 1nnn
    | Call(nnn: Addr)                  // 2nnn
    | SeByte(x: Reg, kk: Byte)         // 3xkk
    | SneByte(x: Reg, kk: Byte)        // 4xkk
    | SeReg(x: Reg, y: Reg)            // 5xy0
    | LdByte(x: Reg, kk: Byte)         // 6xkk
    | AddByte(x: Reg, kk: Byte)        // 7xkk
    | LdReg(x: Reg, y: Reg)            // 8xy0
    | Or(x: Reg, y: Reg)               // 8xy1
    | And(x: Reg, y: Reg)              // 8xy2
    | Xor(x: Reg, y: Reg)              // 8xy3
    | AddReg(x: Reg, y: Reg)           // 8xy4
    | Sub(x: Reg, y: Reg)              // 8xy5
    | Shr(x: Reg)                      // 8xy6 (Vy is ignored)
    | Subn(x: Reg, y: Reg)             // 8xy7
    | Shl(x: Reg)                      // 8xyE (Vy is ignored)
    | SneReg(x: Reg, y: Reg)           // 9xy0
    | LdI(nnn: Addr)                   // Annn
    | JpV0(nnn: Addr)                  // Bnnn
    | Rnd(x: Reg, kk: Byte)            // Cxkk
    | Drw(x: Reg, y: Reg, n: Nibble)   // Dxyn
    | Skp(x: Reg)                      // Ex9E
    | Sknp(x: Reg)                     // ExA1
    | LdVxDt(x: Reg)                   // Fx07
    | LdVxK(x: Reg)                    // Fx0A
    | LdDtVx(x: Reg)                   // Fx15
    | LdStVx(x: Reg)                   // Fx18
    | AddI(x: Reg)                     // Fx1E
    | LdF(x: Reg)                      // Fx29
    | LdB(x: Reg)                      // Fx33
    | LdIVx(x: Reg)                    // Fx55
    | LdVxI(x: Reg)                    // Fx65
    | Unknown(logged: bool)            // no case matched; logged: a diagnostic is printed

  /** The encodings no case of cpu.go's dispatch matches. */
  predicate Unrecognized(op: Word)
  {
    var f, n, kk := Family(op), LowNibble(op), LowByte(op);
    || (f == 0x0 && n != 0x0 && n != 0xE)
    || (f == 0x8 && 0x8 <= n && n != 0xE)
    || (f == 0xE && kk != 0x9E && kk != 0xA1)
    || (f == 0xF && kk != 0x07 && kk != 0x0A && kk != 0x15 && kk != 0x18 && kk != 0x1E
                 && kk != 0x29 && kk != 0x33 && kk != 0x55 && kk != 0x65)
  }

  /**
   * The dispatch of cpu.go.  Family 0 tests only the low nibble (any 0nn0 is CLS,
   * any 0nnE is RET); families 5 and 9 ignore the low nibble; the 16 families are
   * exhaustive, so the outer default case of the Go switch is never taken.
   */
  function Decode(op: Word): (ins: Instr)
    ensures ins.Unknown? <==> Unrecognized(op)
    ensures ins.Unknown? ==> (ins.logged <==> Family(op) != 0xE)
  {
    var f, x, y, n, kk, nnn := Family(op), RegX(op), RegY(op), LowNibble(op), LowByte(op), Address(op);
    if f == 0x0 then
      if n == 0x0 then Cls else if n == 0xE then Ret else Unknown(true)
    else if f == 0x1 then Jp(nnn)
    else if f == 0x2 then Call(nnn)
    else if f == 0x3 then SeByte(x, kk)
    else if f == 0x4 then SneByte(x, kk)
    else if f == 0x5 then SeReg(x, y)
    else if f == 0x6 then LdByte(x, kk)
    else if f == 0x7 then AddByte(x, kk)
    else if f == 0x8 then
      if n == 0x0 then LdReg(x, y)
      else if n == 0x1 then Or(x, y)
      else if n == 0x2 then And(x, y)
      else if n == 0x3 then Xor(x, y)
      else if n == 0x4 then AddReg(x, y)
      else if n == 0x5 then Sub(x, y)
      else if n == 0x6 then Shr(x)
      else if n == 0x7 then Subn(x, y)
      else if n == 0xE then Shl(x)
      else Unknown(true)
    else if f == 0x9 then SneReg(x, y)
    else if f == 0xA then LdI(nnn)
    else if f == 0xB then JpV0(nnn)
    else if f == 0xC then Rnd(x, kk)
    else if f == 0xD then Drw(x, y, n)
    else if f == 0xE then
      // this switch of cpu.go has no default case and prints nothing
      if kk == 0x9E then Skp(x) else if kk == 0xA1 then Sknp(x) else Unknown(false)
    else
      if kk == 0x07 then LdVxDt(x)
      else if kk == 0x0A then LdVxK(x)
      else if kk == 0x15 then LdDtVx(x)
      else if kk == 0x18 then LdStVx(x)
      else if kk == 0x1E then AddI(x)
      else if kk == 0x29 then LdF(x)
      else if kk == 0x33 then LdB(x)
      else if kk == 0x55 then LdIVx(x)
      else if kk == 0x65 then LdVxI(x)
      else Unknown(true)
  }

  /** The canonical encoding of a recognised instruction (the mnemonic table). */
  function Encode(ins: Instr): Word
    requires !ins.Unknown?
  {
    match ins
    case Cls => 0x00E0
    case Ret => 0x00EE
    case Jp(nnn) => 0x1000 + nnn
    case Call(nnn) => 0x2000 + nnn
    case SeByte(x, kk) => 0x3000 + x * 0x100 + kk
    case SneByte(x, kk) => 0x4000 + x * 0x100 + kk
    case SeReg(x, y) => 0x5000 + x * 0x100 + y * 0x10
    case LdByte(x, kk) => 0x6000 + x * 0x100 + kk
    case AddByte(x, kk) => 0x7000 + x * 0x100 + kk
    case LdReg(x, y) => 0x8000 + x * 0x100 + y * 0x10
    case Or(x, y) => 0x8001 + x * 0x100 + y * 0x10
    case And(x, y) => 0x8002 + x * 0x100 + y * 0x10
    case Xor(x, y) => 0x8003 + x * 0x100 + y * 0x10
    case AddReg(x, y) => 0x8004 + x * 0x100 + y * 0x10
    case Sub(x, y) => 0x8005 + x * 0x100 + y * 0x10
    case Shr(x) => 0x8006 + x * 0x100
    case Subn(x, y) => 0x8007 + x * 0x100 + y * 0x10
    case Shl(x) => 0x800E + x * 0x100
    case SneReg(x, y) => 0x9000 + x * 0x100 + y * 0x10
    case LdI(nnn) => 0xA000 + nnn
    case JpV0(nnn) => 0xB000 + nnn
    case Rnd(x, kk) => 0xC000 + x * 0x100 + kk
    case Drw(x, y, n) => 0xD000 + x * 0x100 + y * 0x10 + n
    case Skp(x) => 0xE09E + x * 0x100
    case Sknp(x) => 0xE0A1 + x * 0x100
    case LdVxDt(x) => 0xF007 + x * 0x100
    case LdVxK(x) => 0xF00A + x * 0x100
    case LdDtVx(x) => 0xF015 + x * 0x100
    case LdStVx(x) => 0xF018 + x * 0x100
    case AddI(x) => 0xF01E + x * 0x100
    case LdF(x) => 0xF029 + x * 0x100
    case LdB(x) => 0xF033 + x * 0x100
    case LdIVx(x) => 0xF055 + x * 0x100
    case LdVxI(x) => 0xF065 + x * 0x100
  }

  // ---------------------------------------------------------------------------
  // Execution of one instruction (before the timer update)
  // ---------------------------------------------------------------------------

  /** The instructions that skip the next one when their condition holds. */
  predicate IsSkip(ins: Instr)
  {
    ins.SeByte? || ins.SneByte? || ins.SeReg? || ins.SneReg? || ins.Skp? || ins.Sknp?
  }

  /** `pc += k` on the uint16 program counter. */
  function Advance(m: Machine, k: int): Machine { m.(pc := Wrap16(m.pc + k)) }

  /** The default `pc += 2`. */
  function Next(m: Machine): Machine { Advance(m, 2) }

  /** `pc += 4` when the condition holds, `pc += 2` otherwise. */
  function SkipIf(m: Machine, condition: bool): Machine { Advance(m, if condition then 4 else 2) }

  function SetV(m: Machine, x: Reg, b: Byte): Machine { m.(v := m.v[x := b]) }

  /** 00EE: the uint8 sp is decremented first, then the stack is read. */
  function Return(m: Machine): Result<Machine, Fault>
  {
    var sp := Wrap8(m.sp as int - 1);
    if sp < StackSize then Success(Next(m.(sp := sp, pc := m.stack[sp])))
    else if m.sp == 0 then Failure(StackUnderflow)
    else Failure(StackOverflow)
  }

  /** 2nnn: push pc, then jump. */
  function CallSubroutine(m: Machine, nnn: Addr): Result<Machine, Fault>
  {
    if m.sp < StackSize then Success(m.(stack := m.stack[m.sp := m.pc], sp := m.sp + 1, pc := nnn))
    else Failure(StackOverflow)
  }

  /**
   * 8xy4.  VF is written before the sum, and the sum then reads Vx and Vy again,
   * so with x or y equal to F the flag takes part in the sum.
   */
  function AddWithCarry(m: Machine, x: Reg, y: Reg): (r: Machine)
    ensures r == m.(v := r.v)
    ensures x != Flag && y != Flag ==>
      && (r.v[Flag] == 1 <==> m.v[x] as int + m.v[y] > 0xFF)
      && (r.v[Flag] == 0 <==> m.v[x] as int + m.v[y] <= 0xFF)
      && r.v[x] == (m.v[x] as int + m.v[y]) % 0x100
      && forall k :: 0 <= k < RegisterCount && k != x && k != Flag ==> r.v[k] == m.v[k]
  {
    var carry := if Wrap8(m.v[x] as int + m.v[y]) < m.v[x] then 1 else 0;
    var v := m.v[Flag := carry];
    m.(v := v[x := Wrap8(v[x] as int + v[y])])
  }

  /** 8xy5: VF := (Vx > Vy), strictly, then Vx := Vx - Vy. */
  function SubWithBorrow(m: Machine, x: Reg, y: Reg): (r: Machine)
    ensures r == m.(v := r.v)
    ensures x != Flag && y != Flag ==>
      && (r.v[Flag] == 1 <==> m.v[x] > m.v[y])
      && (r.v[Flag] == 0 <==> m.v[x] <= m.v[y])
      && r.v[x] == (m.v[x] as int - m.v[y]) % 0x100
      && forall k :: 0 <= k < RegisterCount && k != x && k != Flag ==> r.v[k] == m.v[k]
  {
    var v := m.v[Flag := if m.v[x] > m.v[y] then 1 else 0];
    m.(v := v[x := Wrap8(v[x] as int - v[y])])
  }

  /** 8xy7: VF := !(Vx > Vy), then Vx := Vy - Vx. */
  function SubReversed(m: Machine, x: Reg, y: Reg): (r: Machine)
    ensures r == m.(v := r.v)
    ensures x != Flag && y != Flag ==>
      && (r.v[Flag] == 1 <==> m.v[x] <= m.v[y])
      && (r.v[Flag] == 0 <==> m.v[x] > m.v[y])
      && r.v[x] == (m.v[y] as int - m.v[x]) % 0x100
      && forall k :: 0 <= k < RegisterCount && k != x && k != Flag ==> r.v[k] == m.v[k]
  {
    var v := m.v[Flag := if m.v[x] > m.v[y] then 0 else 1];
    m.(v := v[x := Wrap8(v[y] as int - v[x])])
  }

  // Dxyn -----------------------------------------------------------------------

  /**
   * `0x80 >> row` as a uint8.  cpu.go tests this mask against sprite row `row`,
   * where the usual design tests the column: each row is drawn whole or not at
   * all, and rows 8 and above are never drawn.
   */
  function SpriteMask(row: int): Byte
  {
    if 0 <= row < 8 then [0x80, 0x40, 0x20, 0x10, 0x08, 0x04, 0x02, 0x01][row] else 0
  }

  /** The address `row + I` (uint16) of sprite row `row`. */
  function SpriteAddress(m: Machine, row: int): Word { Wrap16(row + m.i) }

  /** Every sprite row below n lies in memory. */
  predicate RowsReadable(m: Machine, n: int)
  {
    forall row | 0 <= row < n :: SpriteAddress(m, row) < MemorySize
  }

  /** Whether cpu.go toggles the cells of sprite row `row`. */
  predicate RowDrawn(m: Machine, row: int)
    requires 0 <= row && SpriteAddress(m, row) < MemorySize
  {
    BitAnd(m.memory[SpriteAddress(m, row)], SpriteMask(row)) != 0
  }

  /** The display index `x + col + (y + row) * 64`. */
  function CellIndex(px: int, py: int, row: int, col: int): int
  {
    px + col + (py + row) * DisplayWidth
  }

  /** No display or memory access of the draw loops is out of range. */
  predicate SpriteFits(m: Machine, px: Byte, py: Byte, n: Nibble)
  {
    && RowsReadable(m, n)
    && forall row | 0 <= row < n ::
         RowDrawn(m, row) ==> CellIndex(px, py, row, SpriteWidth - 1) < DisplaySize
  }

  /** Cell k is toggled by drawing the first n sprite rows at (px, py). */
  predicate Hit(m: Machine, px: Byte, py: Byte, n: int, k: int)
    requires RowsReadable(m, n)
  {
    var d := k - px - py * DisplayWidth;
    0 <= d && d / DisplayWidth < n && d % DisplayWidth < SpriteWidth && RowDrawn(m, d / DisplayWidth)
  }

  /** Some cell that is toggled was lit before. */
  predicate Collides(m: Machine, px: Byte, py: Byte, n: int)
    requires RowsReadable(m, n)
  {
    exists k | 0 <= k < DisplaySize :: Hit(m, px, py, n, k) && m.display[k] == 1
  }

  /** The display after the draw loops: every hit cell flipped, every other cell kept. */
  function Sprite(m: Machine, px: Byte, py: Byte, n: Nibble): Display
    requires RowsReadable(m, n)
  {
    seq(DisplaySize, k requires 0 <= k < DisplaySize =>
      if Hit(m, px, py, n, k) then Flip(m.display[k]) else m.display[k])
  }

  /** Dxyn.  Vx and Vy are read before VF is cleared. */
  function DrawSprite(m: Machine, x: Reg, y: Reg, n: Nibble): Result<Machine, Fault>
  {
    var px, py := m.v[x], m.v[y];
    if SpriteFits(m, px, py, n) then
      Success(Next(m.(
        v := m.v[Flag := if Collides(m, px, py, n) then 1 else 0],
        display := Sprite(m, px, py, n),
        drawScreen := true)))
    else
      Failure(SpriteOutOfRange)
  }

  // Fx0A -----------------------------------------------------------------------

  /** The highest pressed key below n (the key scan keeps the last key it sees). */
  function LastPressed(keys: Keys, n: nat): (r: Option<Reg>)
    requires n <= KeyCount
    ensures r.None? <==> forall k :: 0 <= k < n ==> keys[k] == 0
    ensures r.Some? ==>
      r.value < n && keys[r.value] != 0 && forall k :: r.value < k < n ==> keys[k] == 0
  {
    if n == 0 then None
    else if keys[n - 1] != 0 then Some(n - 1)
    else LastPressed(keys, n - 1)
  }

  /** Fx0A: with no key pressed nothing changes and pc stays on the instruction. */
  function WaitForKey(m: Machine, x: Reg): Machine
  {
    match LastPressed(m.keys, KeyCount)
    case Some(k) => Next(SetV(m, x, k))
    case None => m
  }

  // Fx33, Fx55, Fx65 -------------------------------------------------------------

  /** Fx33.  The third digit is `(Vx % 100) / 10`, the tens digit again. */
  function StoreBcd(m: Machine, x: Reg): Result<Machine, Fault>
  {
    var a0, a1, a2 := m.i, Wrap16(m.i + 1), Wrap16(m.i + 2);
    if a0 < MemorySize && a1 < MemorySize && a2 < MemorySize then
      var b := m.v[x];
      Success(Next(m.(memory := m.memory[a0 := b / 100][a1 := (b / 10) % 10][a2 := (b % 100) / 10])))
    else
      Failure(MemoryOutOfRange)
  }

  /** The address `uint16(k) + I` of register k in LD [I] / LD Vx, [I]. */
  function Slot(m: Machine, k: int): Word { Wrap16(k + m.i) }

  /** The register whose slot is address a: the inverse of Slot. */
  function Offset(m: Machine, a: int): Word { Wrap16(a - m.i) }

  predicate SlotsInMemory(m: Machine, x: Reg)
  {
    forall k | 0 <= k <= x :: Slot(m, k) < MemorySize
  }

  /** Fx55.  I ends as x + 1, not I + x + 1. */
  function StoreRegisters(m: Machine, x: Reg): Result<Machine, Fault>
  {
    if SlotsInMemory(m, x) then
      Success(Next(m.(
        memory := seq(MemorySize, a requires 0 <= a < MemorySize =>
          if Offset(m, a) <= x then m.v[Offset(m, a)] else m.memory[a]),
        i := x + 1)))
    else
      Failure(MemoryOutOfRange)
  }

  /** Fx65.  I ends as x + 1, not I + x + 1. */
  function LoadRegisters(m: Machine, x: Reg): Result<Machine, Fault>
  {
    if SlotsInMemory(m, x) then
      Success(Next(m.(
        v := seq(RegisterCount, k requires 0 <= k < RegisterCount =>
          if k <= x then m.memory[Slot(m, k)] else m.v[k]),
        i := x + 1)))
    else
      Failure(MemoryOutOfRange)
  }

  // The dispatch -------------------------------------------------------------------

  /** The effect of one decoded instruction; `rnd` is the random byte of Cxkk. */
  function Execute(m: Machine, ins: Instr, rnd: Byte): Result<Machine, Fault>
  {
    match ins
    case Cls => Success(Next(m.(display := Zeros(DisplaySize), drawScreen := true)))
    case Ret => Return(m)
    case Jp(nnn) => Success(m.(pc := nnn))
    case Call(nnn) => CallSubroutine(m, nnn)
    case SeByte(x, kk) => Success(SkipIf(m, m.v[x] == kk))
    case SneByte(x, kk) => Success(SkipIf(m, m.v[x] != kk))
    case SeReg(x, y) => Success(SkipIf(m, m.v[x] == m.v[y]))
    case LdByte(x, kk) => Success(Next(SetV(m, x, kk)))
    case AddByte(x, kk) => Success(Next(SetV(m, x, Wrap8(m.v[x] as int + kk))))
    case LdReg(x, y) => Success(Next(SetV(m, x, m.v[y])))
    case Or(x, y) => Success(Next(SetV(m, x, BitOr(m.v[x], m.v[y]))))
    case And(x, y) => Success(Next(SetV(m, x, BitAnd(m.v[x], m.v[y]))))
    case Xor(x, y) => Success(Next(SetV(m, x, BitXor(m.v[x], m.v[y]))))
    case AddReg(x, y) => Success(Next(AddWithCarry(m, x, y)))
    case Sub(x, y) => Success(Next(SubWithBorrow(m, x, y)))
    case Shr(x) => Success(Next(SetV(m, x, m.v[x] / 2)))
    case Subn(x, y) => Success(Next(SubReversed(m, x, y)))
    case Shl(x) => Success(Next(SetV(m, x, Wrap8(m.v[x] as int * 2))))
    case SneReg(x, y) => Success(SkipIf(m, m.v[x] != m.v[y]))
    case LdI(nnn) => Success(Next(m.(i := nnn)))
    case JpV0(nnn) => Success(Next(m.(pc := Wrap16(nnn + m.v[0]))))
    case Rnd(x, kk) => Success(Next(SetV(m, x, BitAnd(rnd, kk))))
    case Drw(x, y, n) => DrawSprite(m, x, y, n)
    case Skp(x) =>
      if m.v[x] < KeyCount then Success(SkipIf(m, m.keys[m.v[x]] == 1)) else Failure(KeyOutOfRange)
    case Sknp(x) =>
      if m.v[x] < KeyCount then Success(SkipIf(m, m.keys[m.v[x]] != 1)) else Failure(KeyOutOfRange)
    case LdVxDt(x) => Success(Next(SetV(m, x, m.delayTimer)))
    case LdVxK(x) => Success(WaitForKey(m, x))
    case LdDtVx(x) => Success(Next(m.(delayTimer := m.v[x])))
    case LdStVx(x) => Success(Next(m.(soundTimer := m.v[x])))
    case AddI(x) => Success(Next(m.(i := Wrap16(m.i + m.v[x]))))
    case LdF(x) => Success(Next(m.(i := m.v[x] as int * GlyphSize)))
    case LdB(x) => StoreBcd(m, x)
    case LdIVx(x) => StoreRegisters(m, x)
    case LdVxI(x) => LoadRegisters(m, x)
    case Unknown(_) => Success(m)
  }

  /** Fx0A with no key pressed returns before the timer update. */
  predicate Ticks(m: Machine, ins: Instr)
  {
    !(ins.LdVxK? && LastPressed(m.keys, KeyCount).None?)
  }

  /** The timer update at the end of a cycle. */
  function Tick(m: Machine): Machine
  {
    m.(delayTimer := if m.delayTimer > 0 then m.delayTimer - 1 else m.delayTimer,
       soundTimer := if m.soundTimer > 0 then m.soundTimer - 1 else m.soundTimer)
  }

  /** One call of Cycle: fetch (recorded in `opcode`), decode, execute, timers. */
  function Cycle(m: Machine, rnd: Byte): Result<Machine, Fault>
  {
    var op :- Fetch(m);
    var fetched := m.(opcode := op);
    var ins := Decode(op);
    var executed :- Execute(fetched, ins, rnd);
    Success(if Ticks(fetched, ins) then Tick(executed) else executed)
  }

  /** The cycle prints BEEP: the timer update runs and finds the sound timer at 1. */
  predicate Beeps(m: Machine, rnd: Byte)
    requires Cycle(m, rnd).Success?
  {
    var op := Fetch(m).value;
    var fetched := m.(opcode := op);
    Ticks(fetched, Decode(op)) && Execute(fetched, Decode(op), rnd).value.soundTimer == 1
  }

  /** The cycle prints "Unknown opcode". */
  predicate Logged(m: Machine)
  {
    Fetch(m).Success? && Decode(Fetch(m).value) == Unknown(true)
  }

  // ---------------------------------------------------------------------------
  // The other entry points
  // ---------------------------------------------------------------------------

  /** Init: registers, stack, display and memory cleared, font loaded; timers and keys kept. */
  function Init(m: Machine): Machine
  {
    m.(pc := ProgramStart, opcode := 0, i := 0, sp := 0, drawScreen := true,
       display := Zeros(DisplaySize), stack := seq(StackSize, _ => 0), v := Zeros(RegisterCount),
       memory := FontSet + Zeros(MemorySize - |FontSet|))
  }

  /** The size check and copy of LoadROM, over the bytes of the file. */
  function LoadROM(m: Machine, program: seq<Byte>): (r: Result<Machine, LoadError>)
    ensures r.Success? <==> |program| <= MaxProgramSize
    ensures r.Failure? ==> r.error == ProgramTooLarge
    ensures r.Success? ==>
      && r.value == m.(memory := r.value.memory)
      && (forall k :: 0 <= k < |program| ==> r.value.memory[ProgramStart + k] == program[k])
      && (forall a :: 0 <= a < MemorySize && !(ProgramStart <= a < ProgramStart + |program|) ==>
            r.value.memory[a] == m.memory[a])
  {
    if MemorySize - ProgramStart < |program| then
      Failure(ProgramTooLarge)
    else
      Success(m.(memory := m.memory[..ProgramStart] + program + m.memory[ProgramStart + |program|..]))
  }

  /** Draw: report the dirty flag and clear it. */
  function Draw(m: Machine): (bool, Machine)
  {
    (m.drawScreen, m.(drawScreen := false))
  }

  /** Key: record a press (1) or a release (0). */
  function Key(m: Machine, key: Byte, pressed: bool): Machine
    requires key < KeyCount
  {
    m.(keys := m.keys[key := if pressed then 1 else 0])
  }
}
