/**
 * The interpreter of pkg/cpu.go as a class whose fields are updated in place,
 * as the Go methods do through their receiver.  `State()` reads the fields as a
 * `Chip8Spec.Machine`, and every method is proved to move that state exactly as
 * the corresponding function of Chip8Spec says.
 */
module Chip8Cpu {
  import opened Chip8Spec

  /** Cells covered by the draw loops once they reach row `row`, column `col`. */
  ghost predicate HitBefore(m: Machine, px: Byte, py: Byte, row: int, col: int, k: int)
    requires 0 <= row && RowsReadable(m, row + 1)
  {
    || Hit(m, px, py, row, k)
    || (var d := k - px - py * DisplayWidth;
        0 <= d && d / DisplayWidth == row && d % DisplayWidth < col && RowDrawn(m, row))
  }

  /** A lit cell has been toggled once the draw loops reach row `row`, column `col`. */
  ghost predicate CollidesBefore(m: Machine, px: Byte, py: Byte, row: int, col: int)
    requires 0 <= row && RowsReadable(m, row + 1)
  {
    exists k | 0 <= k < DisplaySize :: HitBefore(m, px, py, row, col, k) && m.display[k] == 1
  }

  /** Finishing a row is the same as drawing one row more. */
  lemma RowDone(m: Machine, px: Byte, py: Byte, row: int, k: int)
    requires 0 <= row && RowsReadable(m, row + 1)
    ensures HitBefore(m, px, py, row, SpriteWidth, k) == Hit(m, px, py, row + 1, k)
  {
  }

  /** Finishing a row finds a collision exactly when drawing one row more does. */
  lemma CollidesDone(m: Machine, px: Byte, py: Byte, row: int)
    requires 0 <= row && RowsReadable(m, row + 1)
    ensures CollidesBefore(m, px, py, row, SpriteWidth) == Collides(m, px, py, row + 1)
  {
    forall k | 0 <= k < DisplaySize {
      RowDone(m, px, py, row, k);
    }
  }

  /** One more column covers exactly the cell of that column, which was not covered before. */
  lemma HitStep(m: Machine, px: Byte, py: Byte, row: int, col: int, k: int)
    requires 0 <= row && RowsReadable(m, row + 1) && 0 <= col < SpriteWidth
    ensures HitBefore(m, px, py, row, col + 1, k) <==>
      HitBefore(m, px, py, row, col, k) || (RowDrawn(m, row) && k == CellIndex(px, py, row, col))
    ensures !HitBefore(m, px, py, row, col, CellIndex(px, py, row, col))
  {
    var d := CellIndex(px, py, row, col) - px - py * DisplayWidth;
    assert d == col + row * DisplayWidth;
    assert d / DisplayWidth == row && d % DisplayWidth == col;
  }

  /** One more column collides exactly when the cell of that column is lit. */
  lemma CollideStep(m: Machine, px: Byte, py: Byte, row: int, col: int)
    requires 0 <= row && RowsReadable(m, row + 1) && 0 <= col < SpriteWidth
    requires RowDrawn(m, row) ==> CellIndex(px, py, row, SpriteWidth - 1) < DisplaySize
    ensures var at := CellIndex(px, py, row, col);
      CollidesBefore(m, px, py, row, col + 1) <==>
        CollidesBefore(m, px, py, row, col) || (RowDrawn(m, row) && m.display[at] == 1)
  {
    var at := CellIndex(px, py, row, col);
    forall k | 0 <= k < DisplaySize {
      HitStep(m, px, py, row, col, k);
    }
    if RowDrawn(m, row) && m.display[at] == 1 {
      HitStep(m, px, py, row, col, at);
      assert HitBefore(m, px, py, row, col + 1, at);
    }
  }

  /** Slot and Offset are inverse on addresses. */
  lemma SlotOffset(m: Machine, k: int, a: int)
    requires 0 <= k < 0x1_0000 && 0 <= a < 0x1_0000
    ensures (Slot(m, k) == a) <==> (Offset(m, a) == k)
  {
  }

  // The groups of instructions that Execute hands to one method each.

  predicate IsFlow(ins: Instr)
  {
    ins.Cls? || ins.Ret? || ins.Jp? || ins.Call? || ins.JpV0?
  }

  predicate IsLoad(ins: Instr)
  {
    ins.LdByte? || ins.AddByte? || ins.LdReg? || ins.Rnd?
  }

  predicate IsBitwise(ins: Instr)
  {
    ins.Or? || ins.And? || ins.Xor?
  }

  predicate IsFlagged(ins: Instr)
  {
    ins.AddReg? || ins.Sub? || ins.Shr? || ins.Subn? || ins.Shl?
  }

  predicate IsTimerOrKey(ins: Instr)
  {
    ins.LdVxDt? || ins.LdVxK? || ins.LdDtVx? || ins.LdStVx?
  }

  predicate IsIndex(ins: Instr)
  {
    ins.LdI? || ins.AddI? || ins.LdF?
  }

  class CHIP8 {
    var opcode: Word
    const memory: array<Byte>
    const stack: array<Word>
    const v: array<Byte>
    var i: Word
    var pc: Word
    var sp: Byte
    const display: array<Byte>
    var drawScreen: bool
    var delayTimer: Byte
    var soundTimer: Byte
    const keys: array<Byte>

    /** The Go struct holds its arrays by value: fixed sizes, no sharing. */
    ghost predicate Valid()
      reads this
    {
      && memory.Length == MemorySize
      && stack.Length == StackSize
      && v.Length == RegisterCount
      && display.Length == DisplaySize
      && keys.Length == KeyCount
      && memory != v && memory != display && memory != keys
      && v != display && v != keys && display != keys
    }

    ghost function State(): Machine
      reads this, memory, stack, v, display, keys
      requires Valid()
    {
      Machine(opcode, memory[..], stack[..], v[..], i, pc, sp, display[..],
              drawScreen, delayTimer, soundTimer, keys[..])
    }

    /** The zero value `CHIP8{}` of the Go struct. */
    constructor ()
      ensures Valid()
      ensures fresh(memory) && fresh(stack) && fresh(v) && fresh(display) && fresh(keys)
      ensures State() == Machine(0, Zeros(MemorySize), seq(StackSize, _ => 0), Zeros(RegisterCount),
                                 0, 0, 0, Zeros(DisplaySize), false, 0, 0, Zeros(KeyCount))
    {
      opcode := 0;
      memory := new Byte[MemorySize](_ => 0);
      stack := new Word[StackSize](_ => 0);
      v := new Byte[RegisterCount](_ => 0);
      i, pc, sp := 0, 0, 0;
      display := new Byte[DisplaySize](_ => 0);
      drawScreen := false;
      delayTimer, soundTimer := 0, 0;
      keys := new Byte[KeyCount](_ => 0);
      new;
      assert memory[..] == Zeros(MemorySize);
      assert v[..] == Zeros(RegisterCount);
      assert display[..] == Zeros(DisplaySize);
      assert keys[..] == Zeros(KeyCount);
    }

    method Init()
      requires Valid()
      modifies this, memory, stack, v, display
      ensures Valid()
      ensures State() == Chip8Spec.Init(old(State()))
    {
      pc := ProgramStart;
      opcode := 0;
      i := 0;
      sp := 0;
      drawScreen := true;
      ClearDisplay();
      ClearStack();
      ClearRegisters();
      ClearMemory();
      LoadFont();
    }

    /** The stack loop of Init. */
    method ClearStack()
      requires Valid()
      modifies stack
      ensures Valid() && State() == old(State()).(stack := seq(StackSize, _ => 0))
    {
      var k := 0;
      while k < StackSize
        invariant 0 <= k <= StackSize
        invariant forall j :: 0 <= j < k ==> stack[j] == 0
      {
        stack[k] := 0;
        k := k + 1;
      }
      assert stack[..] == seq(StackSize, _ => 0);
    }

    /** The register loop of Init. */
    method ClearRegisters()
      requires Valid()
      modifies v
      ensures Valid() && State() == old(State()).(v := Zeros(RegisterCount))
    {
      var k := 0;
      while k < RegisterCount
        invariant 0 <= k <= RegisterCount
        invariant forall j :: 0 <= j < k ==> v[j] == 0
      {
        v[k] := 0;
        k := k + 1;
      }
      assert v[..] == Zeros(RegisterCount);
    }

    /** The memory loop of Init. */
    method ClearMemory()
      requires Valid()
      modifies memory
      ensures Valid() && State() == old(State()).(memory := Zeros(MemorySize))
    {
      var k := 0;
      while k < MemorySize
        invariant 0 <= k <= MemorySize
        invariant forall j :: 0 <= j < k ==> memory[j] == 0
      {
        memory[k] := 0;
        k := k + 1;
      }
      assert memory[..] == Zeros(MemorySize);
    }

    /** The font loop of Init, over cleared memory. */
    method LoadFont()
      requires Valid() && memory[..] == Zeros(MemorySize)
      modifies memory
      ensures Valid() && State() == old(State()).(memory := FontSet + Zeros(MemorySize - |FontSet|))
    {
      var k := 0;
      while k < |FontSet|
        invariant 0 <= k <= |FontSet|
        invariant forall j :: 0 <= j < k ==> memory[j] == FontSet[j]
        invariant forall j :: k <= j < MemorySize ==> memory[j] == 0
      {
        memory[k] := FontSet[k];
        k := k + 1;
      }
      assert memory[..] == FontSet + Zeros(MemorySize - |FontSet|);
    }

    /** One fetch, decode and execute step followed by the timer update. */
    method Cycle(rnd: Byte) returns (beep: bool, logged: bool)
      requires Valid() && Chip8Spec.Cycle(State(), rnd).Success?
      modifies this, memory, stack, v, display
      ensures Valid()
      ensures State() == Chip8Spec.Cycle(old(State()), rnd).value
      ensures beep == Beeps(old(State()), rnd)
      ensures logged == Logged(old(State()))
    {
      ghost var m := State();
      opcode := memory[pc] as int * 0x100 + memory[Wrap16(pc + 1)];
      assert State() == m.(opcode := Fetch(m).value);
      var ins := Decode(opcode);
      logged := ins == Unknown(true);
      var ticks := Execute(ins, rnd);
      beep := false;
      if ticks {
        beep := UpdateTimers();
      }
    }

    /** The timer update at the end of Cycle; `beep` is the BEEP message. */
    method UpdateTimers() returns (beep: bool)
      requires Valid()
      modifies this
      ensures Valid() && State() == Tick(old(State()))
      ensures beep == (old(soundTimer) == 1)
    {
      beep := false;
      if delayTimer > 0 {
        delayTimer := delayTimer - 1;
      }
      if soundTimer > 0 {
        if soundTimer == 1 {
          beep := true;
        }
        soundTimer := soundTimer - 1;
      }
    }

    /** The instruction switch of Cycle; `ticks` is false when Fx0A returns early. */
    method Execute(ins: Instr, rnd: Byte) returns (ticks: bool)
      requires Valid() && Chip8Spec.Execute(State(), ins, rnd).Success?
      modifies this, memory, stack, v, display
      ensures Valid()
      ensures Chip8Spec.Execute(old(State()), ins, rnd) == Success(State())
      ensures ticks == Ticks(old(State()), ins)
    {
      ticks := true;
      if IsFlow(ins) {
        ExecuteFlow(ins, rnd);
      } else if IsSkip(ins) {
        ExecuteSkip(ins, rnd);
      } else if IsLoad(ins) {
        ExecuteLoad(ins, rnd);
      } else if IsBitwise(ins) {
        ExecuteBitwise(ins, rnd);
      } else if IsFlagged(ins) {
        ExecuteFlagged(ins, rnd);
      } else if IsTimerOrKey(ins) {
        ticks := ExecuteTimerOrKey(ins, rnd);
      } else if IsIndex(ins) {
        ExecuteIndex(ins, rnd);
      } else if !ins.Unknown? {
        ExecuteMemory(ins, rnd);
      }
    }

    /** 00E0, 00EE, 1nnn, 2nnn and Bnnn. */
    method ExecuteFlow(ins: Instr, rnd: Byte)
      requires Valid() && IsFlow(ins) && Chip8Spec.Execute(State(), ins, rnd).Success?
      modifies this, stack, display
      ensures Valid()
      ensures Chip8Spec.Execute(old(State()), ins, rnd) == Success(State())
    {
      match ins
      case Cls =>
        ClearDisplay();
        drawScreen := true;
        pc := Wrap16(pc + 2);
      case Ret =>
        sp := Wrap8(sp as int - 1);
        pc := stack[sp];
        pc := Wrap16(pc + 2);
      case Jp(nnn) =>
        pc := nnn;
      case Call(nnn) =>
        stack[sp] := pc;
        sp := sp + 1;
        pc := nnn;
      case JpV0(nnn) =>
        pc := Wrap16(nnn + v[0]);
        pc := Wrap16(pc + 2);
      case _ =>
        assert false;
    }

    /** 3xkk, 4xkk, 5xy0, 9xy0, Ex9E and ExA1. */
    method ExecuteSkip(ins: Instr, rnd: Byte)
      requires Valid() && IsSkip(ins) && Chip8Spec.Execute(State(), ins, rnd).Success?
      modifies this
      ensures Valid()
      ensures Chip8Spec.Execute(old(State()), ins, rnd) == Success(State())
    {
      match ins
      case SeByte(x, kk) =>
        SkipNextIf(v[x] == kk);
      case SneByte(x, kk) =>
        SkipNextIf(v[x] != kk);
      case SeReg(x, y) =>
        SkipNextIf(v[x] == v[y]);
      case SneReg(x, y) =>
        SkipNextIf(v[x] != v[y]);
      case Skp(x) =>
        SkipNextIf(keys[v[x]] == 1);
      case Sknp(x) =>
        SkipNextIf(keys[v[x]] != 1);
      case _ =>
        assert false;
    }

    /** `pc += 4` when the condition holds and `pc += 2` otherwise. */
    method SkipNextIf(condition: bool)
      requires Valid()
      modifies this
      ensures Valid() && State() == SkipIf(old(State()), condition)
    {
      pc := if condition then Wrap16(pc + 4) else Wrap16(pc + 2);
    }

    /** 6xkk, 7xkk, 8xy0 and Cxkk. */
    method ExecuteLoad(ins: Instr, rnd: Byte)
      requires Valid() && IsLoad(ins) && Chip8Spec.Execute(State(), ins, rnd).Success?
      modifies this, v
      ensures Valid()
      ensures Chip8Spec.Execute(old(State()), ins, rnd) == Success(State())
    {
      match ins
      case LdByte(x, kk) =>
        LoadRegister(x, kk);
      case AddByte(x, kk) =>
        LoadRegister(x, Wrap8(v[x] as int + kk));
      case LdReg(x, y) =>
        LoadRegister(x, v[y]);
      case Rnd(x, kk) =>
        LoadRegister(x, BitAnd(rnd, kk));
      case _ =>
        assert false;
    }

    /** 8xy1, 8xy2 and 8xy3. */
    method ExecuteBitwise(ins: Instr, rnd: Byte)
      requires Valid() && IsBitwise(ins) && Chip8Spec.Execute(State(), ins, rnd).Success?
      modifies this, v
      ensures Valid()
      ensures Chip8Spec.Execute(old(State()), ins, rnd) == Success(State())
    {
      match ins
      case Or(x, y) =>
        LoadRegister(x, BitOr(v[x], v[y]));
      case And(x, y) =>
        LoadRegister(x, BitAnd(v[x], v[y]));
      case Xor(x, y) =>
        LoadRegister(x, BitXor(v[x], v[y]));
      case _ =>
        assert false;
    }

    /** 8xy4 to 8xyE: the arithmetic that writes VF, and the shifts that leave it. */
    method ExecuteFlagged(ins: Instr, rnd: Byte)
      requires Valid() && IsFlagged(ins) && Chip8Spec.Execute(State(), ins, rnd).Success?
      modifies this, v
      ensures Valid()
      ensures Chip8Spec.Execute(old(State()), ins, rnd) == Success(State())
    {
      match ins
      case AddReg(x, y) =>
        AddRegisters(x, y);
      case Sub(x, y) =>
        SubtractRegisters(x, y);
      case Shr(x) =>
        LoadRegister(x, v[x] / 2);
      case Subn(x, y) =>
        SubtractReversed(x, y);
      case Shl(x) =>
        LoadRegister(x, Wrap8(v[x] as int * 2));
      case _ =>
        assert false;
    }

    /** `V[x] = b` followed by `pc += 2`, the shape of most register instructions. */
    method LoadRegister(x: Reg, b: Byte)
      requires Valid()
      modifies this, v
      ensures Valid() && State() == Next(SetV(old(State()), x, b))
    {
      v[x] := b;
      pc := Wrap16(pc + 2);
    }

    /** 8xy4, with VF written before Vx is. */
    method AddRegisters(x: Reg, y: Reg)
      requires Valid()
      modifies this, v
      ensures Valid() && State() == Next(AddWithCarry(old(State()), x, y))
    {
      SetRegister(Flag, if Wrap8(v[x] as int + v[y]) < v[x] then 1 else 0);
      SetRegister(x, Wrap8(v[x] as int + v[y]));
      pc := Wrap16(pc + 2);
    }

    /** 8xy5, with VF written before Vx is. */
    method SubtractRegisters(x: Reg, y: Reg)
      requires Valid()
      modifies this, v
      ensures Valid() && State() == Next(SubWithBorrow(old(State()), x, y))
    {
      SetRegister(Flag, if v[x] > v[y] then 1 else 0);
      SetRegister(x, Wrap8(v[x] as int - v[y]));
      pc := Wrap16(pc + 2);
    }

    /** 8xy7, with VF written before Vx is. */
    method SubtractReversed(x: Reg, y: Reg)
      requires Valid()
      modifies this, v
      ensures Valid() && State() == Next(SubReversed(old(State()), x, y))
    {
      SetRegister(Flag, if v[x] > v[y] then 0 else 1);
      SetRegister(x, Wrap8(v[y] as int - v[x]));
      pc := Wrap16(pc + 2);
    }

    /** One register write, `V[x] = b`. */
    method SetRegister(x: Reg, b: Byte)
      requires Valid()
      modifies v
      ensures Valid() && State() == SetV(old(State()), x, b)
    {
      v[x] := b;
    }

    /** Fx07, Fx0A, Fx15 and Fx18; false when Fx0A finds no key. */
    method ExecuteTimerOrKey(ins: Instr, rnd: Byte) returns (ticks: bool)
      requires Valid() && IsTimerOrKey(ins) && Chip8Spec.Execute(State(), ins, rnd).Success?
      modifies this, v
      ensures Valid()
      ensures Chip8Spec.Execute(old(State()), ins, rnd) == Success(State())
      ensures ticks == Ticks(old(State()), ins)
    {
      ticks := true;
      match ins
      case LdVxDt(x) =>
        LoadRegister(x, delayTimer);
      case LdVxK(x) =>
        ticks := WaitForKey(x);
      case LdDtVx(x) =>
        delayTimer := v[x];
        pc := Wrap16(pc + 2);
      case LdStVx(x) =>
        soundTimer := v[x];
        pc := Wrap16(pc + 2);
      case _ =>
        assert false;
    }

    /** Annn, Fx1E and Fx29. */
    method ExecuteIndex(ins: Instr, rnd: Byte)
      requires Valid() && IsIndex(ins) && Chip8Spec.Execute(State(), ins, rnd).Success?
      modifies this
      ensures Valid()
      ensures Chip8Spec.Execute(old(State()), ins, rnd) == Success(State())
    {
      match ins
      case LdI(nnn) =>
        i := nnn;
        pc := Wrap16(pc + 2);
      case AddI(x) =>
        i := Wrap16(i + v[x]);
        pc := Wrap16(pc + 2);
      case LdF(x) =>
        i := v[x] as int * GlyphSize;
        pc := Wrap16(pc + 2);
      case _ =>
        assert false;
    }

    /** Dxyn, Fx33, Fx55 and Fx65. */
    method ExecuteMemory(ins: Instr, rnd: Byte)
      requires Valid() && (ins.Drw? || ins.LdB? || ins.LdIVx? || ins.LdVxI?)
      requires Chip8Spec.Execute(State(), ins, rnd).Success?
      modifies this, memory, v, display
      ensures Valid()
      ensures Chip8Spec.Execute(old(State()), ins, rnd) == Success(State())
    {
      match ins
      case Drw(x, y, n) =>
        DrawSprite(x, y, n);
      case LdB(x) =>
        StoreDigits(x);
      case LdIVx(x) =>
        StoreRegisters(x);
      case LdVxI(x) =>
        LoadRegisters(x);
      case _ =>
        assert false;
    }

    /** Fx33, whose third store is the tens digit again. */
    method StoreDigits(x: Reg)
      requires Valid() && Chip8Spec.StoreBcd(State(), x).Success?
      modifies this, memory
      ensures Valid()
      ensures Chip8Spec.StoreBcd(old(State()), x) == Success(State())
    {
      memory[i] := v[x] / 100;
      memory[Wrap16(i + 1)] := (v[x] / 10) % 10;
      memory[Wrap16(i + 2)] := (v[x] % 100) / 10;
      pc := Wrap16(pc + 2);
    }

    /** The loop of 00E0. */
    method ClearDisplay()
      requires Valid()
      modifies display
      ensures Valid() && State() == old(State()).(display := Zeros(DisplaySize))
    {
      var k := 0;
      while k < DisplaySize
        invariant 0 <= k <= DisplaySize
        invariant forall j :: 0 <= j < k ==> display[j] == 0
      {
        display[k] := 0;
        k := k + 1;
      }
      assert display[..] == Zeros(DisplaySize);
    }

    /** Dxyn: VF cleared, the sprite drawn row by row, the dirty flag raised. */
    method DrawSprite(x: Reg, y: Reg, height: Nibble)
      requires Valid() && Chip8Spec.DrawSprite(State(), x, y, height).Success?
      modifies this, v, display
      ensures Valid()
      ensures Chip8Spec.DrawSprite(old(State()), x, y, height) == Success(State())
    {
      ghost var m := State();
      var px, py := v[x], v[y];
      v[Flag] := 0;
      DrawRows(m, px, py, height);
      drawScreen := true;
      pc := Wrap16(pc + 2);
    }

    /** The outer loop of Dxyn over the sprite rows, with VF already cleared. */
    method DrawRows(ghost m: Machine, px: Byte, py: Byte, height: Nibble)
      requires Valid() && SpriteFits(m, px, py, height)
      requires memory[..] == m.memory && i == m.i
      requires display[..] == m.display && v[..] == m.v[Flag := 0]
      modifies v, display
      ensures display[..] == Sprite(m, px, py, height)
      ensures v[..] == m.v[Flag := if Collides(m, px, py, height) then 1 else 0]
    {
      var row := 0;
      while row < height
        invariant 0 <= row <= height
        invariant forall k :: 0 <= k < DisplaySize ==>
          display[k] == if Hit(m, px, py, row, k) then Flip(m.display[k]) else m.display[k]
        invariant v[..] == m.v[Flag := if Collides(m, px, py, row) then 1 else 0]
      {
        assert SpriteAddress(m, row) < MemorySize;
        assert RowDrawn(m, row) ==> CellIndex(px, py, row, SpriteWidth - 1) < DisplaySize;
        var pixel := memory[Wrap16(row + i)];
        DrawRow(m, px, py, row, pixel);
        row := row + 1;
      }
      assert display[..] == Sprite(m, px, py, height);
    }

    /** The inner loop of Dxyn over the eight cells of sprite row `row`. */
    method DrawRow(ghost m: Machine, px: Byte, py: Byte, row: int, pixel: Byte)
      requires Valid() && 0 <= row && RowsReadable(m, row + 1)
      requires pixel == m.memory[SpriteAddress(m, row)]
      requires RowDrawn(m, row) ==> CellIndex(px, py, row, SpriteWidth - 1) < DisplaySize
      requires forall k :: 0 <= k < DisplaySize ==>
        display[k] == if Hit(m, px, py, row, k) then Flip(m.display[k]) else m.display[k]
      requires v[..] == m.v[Flag := if Collides(m, px, py, row) then 1 else 0]
      modifies v, display
      ensures forall k :: 0 <= k < DisplaySize ==>
        display[k] == if Hit(m, px, py, row + 1, k) then Flip(m.display[k]) else m.display[k]
      ensures v[..] == m.v[Flag := if Collides(m, px, py, row + 1) then 1 else 0]
    {
      var col := 0;
      while col < SpriteWidth
        invariant 0 <= col <= SpriteWidth
        invariant forall k :: 0 <= k < DisplaySize ==>
          display[k] == if HitBefore(m, px, py, row, col, k) then Flip(m.display[k]) else m.display[k]
        invariant v[..] == m.v[Flag := if CollidesBefore(m, px, py, row, col) then 1 else 0]
      {
        DrawCell(m, px, py, row, col, pixel);
        col := col + 1;
      }
      forall k | 0 <= k < DisplaySize {
        RowDone(m, px, py, row, k);
      }
      CollidesDone(m, px, py, row);
    }

    /** One pass of the inner loop of Dxyn: cell `col` of row `row`. */
    method DrawCell(ghost m: Machine, px: Byte, py: Byte, row: int, col: int, pixel: Byte)
      requires Valid() && 0 <= row && RowsReadable(m, row + 1) && 0 <= col < SpriteWidth
      requires pixel == m.memory[SpriteAddress(m, row)]
      requires RowDrawn(m, row) ==> CellIndex(px, py, row, SpriteWidth - 1) < DisplaySize
      requires forall k :: 0 <= k < DisplaySize ==>
        display[k] == if HitBefore(m, px, py, row, col, k) then Flip(m.display[k]) else m.display[k]
      requires v[..] == m.v[Flag := if CollidesBefore(m, px, py, row, col) then 1 else 0]
      modifies v, display
      ensures forall k :: 0 <= k < DisplaySize ==>
        display[k] == if HitBefore(m, px, py, row, col + 1, k) then Flip(m.display[k]) else m.display[k]
      ensures v[..] == m.v[Flag := if CollidesBefore(m, px, py, row, col + 1) then 1 else 0]
    {
      forall k | 0 <= k < DisplaySize {
        HitStep(m, px, py, row, col, k);
      }
      CollideStep(m, px, py, row, col);
      if BitAnd(pixel, SpriteMask(row)) != 0 {
        var at := px + col + (py + row) * DisplayWidth;
        if display[at] == 1 {
          v[Flag] := 1;
        }
        display[at] := Flip(display[at]);
      }
    }

    /** The key scan of Fx0A; `pressed` is false when it finds no key. */
    method WaitForKey(x: Reg) returns (pressed: bool)
      requires Valid()
      modifies this, v
      ensures Valid()
      ensures State() == Chip8Spec.WaitForKey(old(State()), x)
      ensures pressed <==> LastPressed(old(State()).keys, KeyCount).Some?
    {
      pressed := false;
      var k := 0;
      while k < KeyCount
        modifies v
        invariant 0 <= k <= KeyCount
        invariant pressed <==> LastPressed(keys[..], k).Some?
        invariant v[..] == if pressed then old(v[..])[x := LastPressed(keys[..], k).value] else old(v[..])
      {
        if keys[k] != 0 {
          v[x] := k;
          pressed := true;
        }
        k := k + 1;
      }
      if !pressed {
        return;
      }
      pc := Wrap16(pc + 2);
    }

    /** The copy loop of Fx55. */
    method StoreRegisters(x: Reg)
      requires Valid() && SlotsInMemory(State(), x)
      modifies this, memory
      ensures Valid()
      ensures Chip8Spec.StoreRegisters(old(State()), x) == Success(State())
    {
      ghost var m := State();
      var k := 0;
      while k < x + 1
        modifies memory
        invariant 0 <= k <= x + 1
        invariant forall a :: 0 <= a < MemorySize ==>
          memory[a] == if Offset(m, a) < k then m.v[Offset(m, a)] else m.memory[a]
      {
        forall a | 0 <= a < MemorySize
          ensures (Slot(m, k) == a) <==> (Offset(m, a) == k)
        {
          SlotOffset(m, k, a);
        }
        assert Slot(m, k) < MemorySize;
        memory[Wrap16(k + i)] := v[k];
        k := k + 1;
      }
      assert memory[..] == Chip8Spec.StoreRegisters(m, x).value.memory;
      i := x + 1;
      pc := Wrap16(pc + 2);
    }

    /** The copy loop of Fx65. */
    method LoadRegisters(x: Reg)
      requires Valid() && SlotsInMemory(State(), x)
      modifies this, v
      ensures Valid()
      ensures Chip8Spec.LoadRegisters(old(State()), x) == Success(State())
    {
      ghost var m := State();
      var k := 0;
      while k < x + 1
        modifies v
        invariant 0 <= k <= x + 1
        invariant forall j :: 0 <= j < RegisterCount ==>
          v[j] == if j < k then m.memory[Slot(m, j)] else m.v[j]
      {
        assert Slot(m, k) < MemorySize;
        v[k] := memory[Wrap16(i + k)];
        k := k + 1;
      }
      assert v[..] == Chip8Spec.LoadRegisters(m, x).value.v;
      i := x + 1;
      pc := Wrap16(pc + 2);
    }

    /** A copy of the display. */
    method Buffer() returns (buffer: seq<Byte>)
      requires Valid()
      ensures |buffer| == DisplaySize
      ensures forall k :: 0 <= k < DisplaySize ==> buffer[k] == display[k]
    {
      buffer := display[..];
    }

    /** Report and clear the dirty flag. */
    method Draw() returns (draw: bool)
      requires Valid()
      modifies this
      ensures Valid()
      ensures (draw, State()) == Chip8Spec.Draw(old(State()))
    {
      draw := drawScreen;
      drawScreen := false;
    }

    /** Record a key press (1) or release (0). */
    method Key(key: Byte, pressed: bool)
      requires Valid() && key < KeyCount
      modifies keys
      ensures Valid()
      ensures State() == Chip8Spec.Key(old(State()), key, pressed)
    {
      if pressed {
        keys[key] := 1;
      } else {
        keys[key] := 0;
      }
    }

    /** The size check and copy of LoadROM; `err` is Go's returned error. */
    method LoadROM(program: seq<Byte>) returns (err: Option<LoadError>)
      requires Valid()
      modifies memory
      ensures Valid()
      ensures Chip8Spec.LoadROM(old(State()), program) ==
        if err.None? then Success(State()) else Failure(err.value)
      ensures err.Some? ==> State() == old(State())
    {
      if MemorySize - ProgramStart < |program| {
        return Some(ProgramTooLarge);
      }
      var k := 0;
      while k < |program|
        invariant 0 <= k <= |program|
        invariant forall a :: 0 <= a < MemorySize ==>
          memory[a] == if ProgramStart <= a < ProgramStart + k then program[a - ProgramStart] else old(memory[a])
      {
        memory[k + ProgramStart] := program[k];
        k := k + 1;
      }
      err := None;
      assert memory[..] == old(memory[..])[..ProgramStart] + program + old(memory[..])[ProgramStart + |program|..];
    }
  }
}
