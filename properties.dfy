/**
 * Properties of the CHIP-8 interpreter of pkg/cpu.go, stated and proved about
 * the value semantics in Chip8Spec.  The class in Chip8Cpu is proved to move its
 * state exactly as those functions do, so every lemma here holds of it too.
 */
module Chip8Properties {
  import opened Chip8Spec

  // ---------------------------------------------------------------------------
  // Decoding
  // ---------------------------------------------------------------------------

  /** The field extractors of cpu.go take the word with nibbles f, x, y, n apart. */
  lemma FieldsOfWord(op: int, f: Nibble, x: Nibble, y: Nibble, n: Nibble)
    requires op == f * 0x1000 + x * 0x100 + y * 0x10 + n
    ensures 0 <= op < 0x1_0000
    ensures Family(op) == f && RegX(op) == x && RegY(op) == y && LowNibble(op) == n
    ensures LowByte(op) == y * 0x10 + n
  {
    assert op / 0x1000 == f;
    assert op / 0x100 == f * 0x10 + x;
    assert op / 0x10 == f * 0x100 + x * 0x10 + y;
  }

  /** The same for a word `f x kk` whose low byte is kk. */
  lemma FieldsOfByteForm(op: int, f: Nibble, x: Nibble, kk: Byte)
    requires op == f * 0x1000 + x * 0x100 + kk
    ensures 0 <= op < 0x1_0000 && Family(op) == f && RegX(op) == x && LowByte(op) == kk
  {
    assert op / 0x1000 == f;
    assert op / 0x100 == f * 0x10 + x;
  }

  /** The same for a word `f nnn` whose low twelve bits are nnn. */
  lemma FieldsOfAddrForm(op: int, f: Nibble, nnn: Addr)
    requires op == f * 0x1000 + nnn
    ensures 0 <= op < 0x1_0000 && Family(op) == f && Address(op) == nnn
  {
  }

  /** Decoding the canonical encoding gives back the instruction. */
  lemma {:induction false} DecodeEncode(ins: Instr)
    requires !ins.Unknown?
    ensures Decode(Encode(ins)) == ins
  {
    if ins.Jp? || ins.Call? || ins.LdI? || ins.JpV0? {
      DecodeEncodeJumps(ins);
    } else if ins.SeByte? || ins.SneByte? || ins.LdByte? || ins.AddByte? || ins.Rnd? {
      DecodeEncodeImmediate(ins);
    } else if ins.Cls? || ins.Ret? || ins.SeReg? || ins.SneReg? || ins.Drw? {
      DecodeEncodeCompare(ins);
    } else if ins.LdReg? || ins.Or? || ins.And? || ins.Xor? {
      DecodeEncodeLogic(ins);
    } else if ins.AddReg? || ins.Sub? || ins.Shr? || ins.Subn? || ins.Shl? {
      DecodeEncodeArith(ins);
    } else if ins.Skp? || ins.Sknp? || ins.LdVxDt? || ins.LdVxK? || ins.LdDtVx? || ins.LdStVx? {
      DecodeEncodeKeys(ins);
    } else {
      DecodeEncodeIndex(ins);
    }
  }

  /** DecodeEncode for 1nnn, 2nnn, Annn and Bnnn, which carry an address. */
  lemma {:induction false} DecodeEncodeJumps(ins: Instr)
    requires ins.Jp? || ins.Call? || ins.LdI? || ins.JpV0?
    ensures !ins.Unknown? && Decode(Encode(ins)) == ins
  {
    match ins
    case Jp(nnn) => FieldsOfAddrForm(Encode(ins), 0x1, nnn);
    case Call(nnn) => FieldsOfAddrForm(Encode(ins), 0x2, nnn);
    case LdI(nnn) => FieldsOfAddrForm(Encode(ins), 0xA, nnn);
    case JpV0(nnn) => FieldsOfAddrForm(Encode(ins), 0xB, nnn);
  }

  /** DecodeEncode for 3xkk, 4xkk, 6xkk, 7xkk and Cxkk, which carry a byte. */
  lemma {:induction false} DecodeEncodeImmediate(ins: Instr)
    requires ins.SeByte? || ins.SneByte? || ins.LdByte? || ins.AddByte? || ins.Rnd?
    ensures !ins.Unknown? && Decode(Encode(ins)) == ins
  {
    match ins
    case SeByte(x, kk) => FieldsOfByteForm(Encode(ins), 0x3, x, kk);
    case SneByte(x, kk) => FieldsOfByteForm(Encode(ins), 0x4, x, kk);
    case LdByte(x, kk) => FieldsOfByteForm(Encode(ins), 0x6, x, kk);
    case AddByte(x, kk) => FieldsOfByteForm(Encode(ins), 0x7, x, kk);
    case Rnd(x, kk) => FieldsOfByteForm(Encode(ins), 0xC, x, kk);
  }

  /** DecodeEncode for 00E0, 00EE, 5xy0, 9xy0 and Dxyn. */
  lemma {:induction false} DecodeEncodeCompare(ins: Instr)
    requires ins.Cls? || ins.Ret? || ins.SeReg? || ins.SneReg? || ins.Drw?
    ensures !ins.Unknown? && Decode(Encode(ins)) == ins
  {
    match ins
    case Cls =>
    case Ret =>
    case SeReg(x, y) => FieldsOfWord(Encode(ins), 0x5, x, y, 0x0);
    case SneReg(x, y) => FieldsOfWord(Encode(ins), 0x9, x, y, 0x0);
    case Drw(x, y, n) => FieldsOfWord(Encode(ins), 0xD, x, y, n);
  }

  /** DecodeEncode for 8xy0 to 8xy3. */
  lemma {:induction false} DecodeEncodeLogic(ins: Instr)
    requires ins.LdReg? || ins.Or? || ins.And? || ins.Xor?
    ensures !ins.Unknown? && Decode(Encode(ins)) == ins
  {
    match ins
    case LdReg(x, y) => FieldsOfWord(Encode(ins), 0x8, x, y, 0x0);
    case Or(x, y) => FieldsOfWord(Encode(ins), 0x8, x, y, 0x1);
    case And(x, y) => FieldsOfWord(Encode(ins), 0x8, x, y, 0x2);
    case Xor(x, y) => FieldsOfWord(Encode(ins), 0x8, x, y, 0x3);
  }

  /** DecodeEncode for 8xy4 to 8xyE. */
  lemma {:induction false} DecodeEncodeArith(ins: Instr)
    requires ins.AddReg? || ins.Sub? || ins.Shr? || ins.Subn? || ins.Shl?
    ensures !ins.Unknown? && Decode(Encode(ins)) == ins
  {
    match ins
    case AddReg(x, y) => FieldsOfWord(Encode(ins), 0x8, x, y, 0x4);
    case Sub(x, y) => FieldsOfWord(Encode(ins), 0x8, x, y, 0x5);
    case Shr(x) => FieldsOfWord(Encode(ins), 0x8, x, 0x0, 0x6);
    case Subn(x, y) => FieldsOfWord(Encode(ins), 0x8, x, y, 0x7);
    case Shl(x) => FieldsOfWord(Encode(ins), 0x8, x, 0x0, 0xE);
  }

  /** DecodeEncode for Ex9E, ExA1 and Fx07 to Fx18. */
  lemma {:induction false} DecodeEncodeKeys(ins: Instr)
    requires ins.Skp? || ins.Sknp? || ins.LdVxDt? || ins.LdVxK? || ins.LdDtVx? || ins.LdStVx?
    ensures !ins.Unknown? && Decode(Encode(ins)) == ins
  {
    match ins
    case Skp(x) => FieldsOfByteForm(Encode(ins), 0xE, x, 0x9E);
    case Sknp(x) => FieldsOfByteForm(Encode(ins), 0xE, x, 0xA1);
    case LdVxDt(x) => FieldsOfByteForm(Encode(ins), 0xF, x, 0x07);
    case LdVxK(x) => FieldsOfByteForm(Encode(ins), 0xF, x, 0x0A);
    case LdDtVx(x) => FieldsOfByteForm(Encode(ins), 0xF, x, 0x15);
    case LdStVx(x) => FieldsOfByteForm(Encode(ins), 0xF, x, 0x18);
  }

  /** DecodeEncode for Fx1E to Fx65. */
  lemma {:induction false} DecodeEncodeIndex(ins: Instr)
    requires ins.AddI? || ins.LdF? || ins.LdB? || ins.LdIVx? || ins.LdVxI?
    ensures !ins.Unknown? && Decode(Encode(ins)) == ins
  {
    match ins
    case AddI(x) => FieldsOfByteForm(Encode(ins), 0xF, x, 0x1E);
    case LdF(x) => FieldsOfByteForm(Encode(ins), 0xF, x, 0x29);
    case LdB(x) => FieldsOfByteForm(Encode(ins), 0xF, x, 0x33);
    case LdIVx(x) => FieldsOfByteForm(Encode(ins), 0xF, x, 0x55);
    case LdVxI(x) => FieldsOfByteForm(Encode(ins), 0xF, x, 0x65);
  }

  /** Distinct recognised instructions have distinct encodings. */
  lemma EncodeInjective(a: Instr, b: Instr)
    requires !a.Unknown? && !b.Unknown?
    ensures Encode(a) == Encode(b) <==> a == b
  {
    DecodeEncode(a);
    DecodeEncode(b);
  }

  /** Words whose ignored nibbles are not the canonical ones still decode, to an instruction whose canonical word differs. */
  lemma LooseDecoding()
    ensures Decode(0x0120) == Cls && Encode(Cls) != 0x0120
    ensures Decode(0x01FE) == Ret && Encode(Ret) != 0x01FE
    ensures Decode(0x5AB7) == SeReg(0xA, 0xB) && Encode(SeReg(0xA, 0xB)) != 0x5AB7
    ensures Decode(0x9AB1) == SneReg(0xA, 0xB) && Encode(SneReg(0xA, 0xB)) != 0x9AB1
    ensures Decode(0x8AB6) == Shr(0xA) && Encode(Shr(0xA)) != 0x8AB6
  {
  }

  /**
   * The loose decoding over all words: family 0 looks only at the low nibble, and
   * families 5 and 9 ignore it.  In particular a zeroed word (0000) is CLS.
   */
  lemma LooseDecodingAllWords(op: Word)
    ensures Family(op) == 0x0 && LowNibble(op) == 0x0 ==> Decode(op) == Cls
    ensures Family(op) == 0x0 && LowNibble(op) == 0xE ==> Decode(op) == Ret
    ensures Family(op) == 0x5 ==> Decode(op) == SeReg(RegX(op), RegY(op))
    ensures Family(op) == 0x9 ==> Decode(op) == SneReg(RegX(op), RegY(op))
    ensures Decode(0x0000) == Cls
  {
  }

  /** An unrecognised word is a no-op: only `opcode` is written, and the timers tick. */
  lemma UnknownOpcodeIsNoOp(m: Machine, rnd: Byte)
    requires Fetch(m).Success? && Unrecognized(Fetch(m).value)
    ensures Cycle(m, rnd) == Success(Tick(m.(opcode := Fetch(m).value)))
    ensures Cycle(m, rnd).value.pc == m.pc
    ensures Logged(m) <==> Family(Fetch(m).value) != 0xE
  {
  }

  /** Examples of the four kinds of unrecognised word; only the E family prints nothing. */
  lemma UnknownOpcodeExamples()
    ensures Unrecognized(0x0001) && Decode(0x0001) == Unknown(true)
    ensures Unrecognized(0x800D) && Decode(0x800D) == Unknown(true)
    ensures Unrecognized(0xE1A2) && Decode(0xE1A2) == Unknown(false)
    ensures Unrecognized(0xF1FF) && Decode(0xF1FF) == Unknown(true)
  {
  }

  // ---------------------------------------------------------------------------
  // Subroutines, jumps and skips
  // ---------------------------------------------------------------------------

  /** 2nnn pushes the address of the CALL itself and jumps. */
  lemma CallPushes(m: Machine, nnn: Addr, rnd: Byte)
    requires m.sp < StackSize
    ensures Execute(m, Call(nnn), rnd).Success?
    ensures var r := Execute(m, Call(nnn), rnd).value;
      && r.stack[m.sp] == m.pc
      && (forall k :: 0 <= k < StackSize && k != m.sp ==> r.stack[k] == m.stack[k])
      && r.sp == m.sp + 1 && r.pc == nnn
      && r == m.(stack := r.stack, sp := r.sp, pc := r.pc)
  {
  }

  /** A later 00EE that finds that stack slot and stack pointer returns past the CALL. */
  lemma ReturnPops(later: Machine, callSite: Word, sp: Byte, rnd: Byte)
    requires sp < StackSize && later.sp == sp + 1 && later.stack[sp] == callSite
    ensures Execute(later, Ret, rnd) == Success(later.(sp := sp, pc := (callSite as int + 2) % 0x1_0000))
  {
  }

  /** CALL immediately followed by RET: back after the CALL, with the stack slot written. */
  lemma CallReturnRoundTrip(m: Machine, nnn: Addr, rnd: Byte)
    requires m.sp < StackSize
    ensures Execute(m, Call(nnn), rnd).Success?
    ensures Execute(Execute(m, Call(nnn), rnd).value, Ret, rnd) ==
      Success(m.(stack := m.stack[m.sp := m.pc], pc := (m.pc as int + 2) % 0x1_0000))
  {
    CallPushes(m, nnn, rnd);
    ReturnPops(Execute(m, Call(nnn), rnd).value, m.pc, m.sp, rnd);
  }

  /** CALL with a full stack and RET with an empty one index outside the stack. */
  lemma StackFaults(m: Machine, nnn: Addr, rnd: Byte)
    ensures m.sp >= StackSize <==> Execute(m, Call(nnn), rnd) == Failure(StackOverflow)
    ensures m.sp == 0 <==> Execute(m, Ret, rnd) == Failure(StackUnderflow)
    ensures Execute(m, Ret, rnd).Success? <==> 1 <= m.sp <= StackSize
  {
  }

  /** 1nnn and Bnnn; Bnnn still adds 2 after the jump. */
  lemma Jumps(m: Machine, nnn: Addr, rnd: Byte)
    ensures Execute(m, Jp(nnn), rnd) == Success(m.(pc := nnn))
    ensures Execute(m, JpV0(nnn), rnd) == Success(m.(pc := nnn as int + m.v[0] + 2))
  {
  }

  /** The condition under which a skip instruction skips, as its mnemonic reads. */
  predicate SkipTaken(m: Machine, ins: Instr)
    requires IsSkip(ins) && ((ins.Skp? || ins.Sknp?) ==> m.v[ins.x] < KeyCount)
  {
    match ins
    case SeByte(x, kk) => m.v[x] == kk
    case SneByte(x, kk) => m.v[x] != kk
    case SeReg(x, y) => m.v[x] == m.v[y]
    case SneReg(x, y) => m.v[x] != m.v[y]
    case Skp(x) => m.keys[m.v[x]] == 1
    case Sknp(x) => !(m.keys[m.v[x]] == 1)
  }

  /** Every skip moves pc by exactly 4 when its condition holds and by 2 otherwise, and does nothing else. */
  lemma SkipRule(m: Machine, ins: Instr, rnd: Byte)
    requires IsSkip(ins)
    ensures Execute(m, ins, rnd).Success? <==> ((ins.Skp? || ins.Sknp?) ==> m.v[ins.x] < KeyCount)
    ensures Execute(m, ins, rnd).Failure? ==> Execute(m, ins, rnd).error == KeyOutOfRange
    ensures Execute(m, ins, rnd).Success? ==>
      Execute(m, ins, rnd).value == m.(pc := (m.pc as int + if SkipTaken(m, ins) then 4 else 2) % 0x1_0000)
  {
  }

  // ---------------------------------------------------------------------------
  // Register arithmetic
  // ---------------------------------------------------------------------------

  /** 7xkk adds modulo 256 and leaves every other register, VF included, alone. */
  lemma AddImmediate(m: Machine, x: Reg, kk: Byte, rnd: Byte)
    ensures var r := Execute(m, AddByte(x, kk), rnd).value;
      && r.v[x] == (m.v[x] as int + kk) % 0x100
      && (forall k :: 0 <= k < RegisterCount && k != x ==> r.v[k] == m.v[k])
      && r == Next(m).(v := r.v)
  {
  }

  /** 6xkk then 7x00 leaves kk in Vx; 7x01 on 0xFF wraps to 0 without a carry. */
  lemma LoadThenAdd(m: Machine, x: Reg, kk: Byte, rnd: Byte)
    ensures Execute(Execute(m, LdByte(x, kk), rnd).value, AddByte(x, 0), rnd).value.v[x] == kk
    ensures var r := Execute(Execute(m, LdByte(x, 0xFF), rnd).value, AddByte(x, 1), rnd).value;
      r.v[x] == 0 && (x != Flag ==> r.v[Flag] == m.v[Flag])
  {
  }

  /** 8xy4 with x, y not F: VF is the carry out of the 8-bit sum and Vx the sum mod 256. */
  lemma AddCarries(m: Machine, x: Reg, y: Reg, rnd: Byte)
    requires x != Flag && y != Flag
    ensures var r := Execute(m, AddReg(x, y), rnd).value;
      && (r.v[Flag] == 1 <==> m.v[x] as int + m.v[y] > 0xFF) && r.v[Flag] <= 1
      && r.v[x] == (m.v[x] as int + m.v[y]) % 0x100
      && r == Next(m).(v := r.v)
      && forall k :: 0 <= k < RegisterCount && k != x && k != Flag ==> r.v[k] == m.v[k]
  {
  }

  /** 8xy5 with x, y not F: VF is 1 exactly when Vx > Vy, and Vx is Vx - Vy mod 256. */
  lemma SubBorrows(m: Machine, x: Reg, y: Reg, rnd: Byte)
    requires x != Flag && y != Flag
    ensures var r := Execute(m, Sub(x, y), rnd).value;
      && (r.v[Flag] == 1 <==> m.v[x] > m.v[y]) && r.v[Flag] <= 1
      && r.v[x] == (m.v[x] as int - m.v[y]) % 0x100
      && r == Next(m).(v := r.v)
      && forall k :: 0 <= k < RegisterCount && k != x && k != Flag ==> r.v[k] == m.v[k]
  {
  }

  /** 8xy7 with x, y not F: VF is 1 exactly when Vx <= Vy, and Vx is Vy - Vx mod 256. */
  lemma SubnBorrows(m: Machine, x: Reg, y: Reg, rnd: Byte)
    requires x != Flag && y != Flag
    ensures var r := Execute(m, Subn(x, y), rnd).value;
      && (r.v[Flag] == 1 <==> m.v[x] <= m.v[y]) && r.v[Flag] <= 1
      && r.v[x] == (m.v[y] as int - m.v[x]) % 0x100
      && r == Next(m).(v := r.v)
      && forall k :: 0 <= k < RegisterCount && k != x && k != Flag ==> r.v[k] == m.v[k]
  {
  }

  /** VF is written before Vx, so with x = F the flag is overwritten by the sum or difference. */
  lemma FlagDestinationLosesFlag(m: Machine, y: Reg, rnd: Byte)
    requires y != Flag
    ensures var carry := if (m.v[Flag] as int + m.v[y]) % 0x100 < m.v[Flag] then 1 else 0;
      Execute(m, AddReg(Flag, y), rnd).value.v[Flag] == (carry as int + m.v[y]) % 0x100
    ensures var noBorrow := if m.v[Flag] > m.v[y] then 1 else 0;
      Execute(m, Sub(Flag, y), rnd).value.v[Flag] == (noBorrow as int - m.v[y]) % 0x100
  {
  }

  /** 8xF4: the carry is computed from Vx + VF, then written to VF, which the sum reads back. */
  lemma AddFromFlag(m: Machine, x: Reg, rnd: Byte)
    requires x != Flag
    ensures var carry := if (m.v[x] as int + m.v[Flag]) % 0x100 < m.v[x] then 1 else 0;
      var r := Execute(m, AddReg(x, Flag), rnd).value;
      && r.v[Flag] == carry
      && r.v[x] == (m.v[x] as int + carry) % 0x100
  {
  }

  /** 8Fy7: VF is set to (VF <= Vy) first, and then overwritten by Vy - VF with that flag. */
  lemma SubnIntoFlag(m: Machine, y: Reg, rnd: Byte)
    requires y != Flag
    ensures var flag := if m.v[Flag] > m.v[y] then 0 else 1;
      Execute(m, Subn(Flag, y), rnd).value.v[Flag] == (m.v[y] as int - flag) % 0x100
  {
  }

  /** 8xy6 shifts Vx right alone: Vy is ignored and VF is not written. */
  lemma ShiftRight(m: Machine, x: Reg, y: Reg, rnd: Byte)
    ensures Decode(0x8006 + x * 0x100 + y * 0x10) == Shr(x)
    ensures var r := Execute(m, Shr(x), rnd).value;
      r.v == m.v[x := m.v[x] / 2] && r == Next(m).(v := r.v)
  {
    FieldsOfWord(0x8006 + x * 0x100 + y * 0x10, 0x8, x, y, 0x6);
  }

  /** 8xyE shifts Vx left alone, dropping the top bit: Vy is ignored and VF is not written. */
  lemma ShiftLeft(m: Machine, x: Reg, y: Reg, rnd: Byte)
    ensures Decode(0x800E + x * 0x100 + y * 0x10) == Shl(x)
    ensures var r := Execute(m, Shl(x), rnd).value;
      r.v == m.v[x := (m.v[x] as int * 2) % 0x100] && r == Next(m).(v := r.v)
  {
    FieldsOfWord(0x800E + x * 0x100 + y * 0x10, 0x8, x, y, 0xE);
  }

  // ---------------------------------------------------------------------------
  // The display: 00E0, Dxyn and Draw
  // ---------------------------------------------------------------------------

  /** 00E0 blanks every cell, raises the dirty flag, and Draw then reports it once. */
  lemma ClearScreen(m: Machine, rnd: Byte)
    ensures var r := Execute(m, Cls, rnd).value;
      && (forall k :: 0 <= k < DisplaySize ==> r.display[k] == 0)
      && r == Next(m).(display := r.display, drawScreen := true)
      && Draw(r).0 && !Draw(Draw(r).1).0
  {
  }

  /** Draw returns the dirty flag and leaves it cleared, so a second Draw returns false. */
  lemma DrawConsumesFlag(m: Machine)
    ensures Draw(m).0 == m.drawScreen && Draw(m).1 == m.(drawScreen := false)
    ensures !Draw(Draw(m).1).0
  {
  }

  /** 2 to the power k, the weight of bit k. */
  function Pow2(k: nat): (p: nat)
    ensures 0 < p
  {
    if k == 0 then 1 else 2 * Pow2(k - 1)
  }

  /** `0x80 >> row` selects bit 7 - row of the byte; for rows 8 and above it selects nothing. */
  lemma MaskSelectsBit(b: Byte, row: int)
    requires 0 <= row
    ensures row >= SpriteWidth ==> BitAnd(b, SpriteMask(row)) == 0
    ensures row < SpriteWidth ==> (BitAnd(b, SpriteMask(row)) != 0 <==> (b / Pow2(7 - row)) % 2 == 1)
  {
    if row == 0 {
      assert Pow2(7) == 128;
    } else if row == 1 {
      assert Pow2(6) == 64;
    } else if row == 2 {
      assert Pow2(5) == 32;
    } else if row == 3 {
      assert Pow2(4) == 16;
    } else if row == 4 {
      assert Pow2(3) == 8;
    } else if row == 5 {
      assert Pow2(2) == 4;
    } else if row == 6 {
      assert Pow2(1) == 2;
    } else if row == 7 {
      assert Pow2(0) == 1;
    }
  }

  /** Sprite row `row` is drawn whole iff bit 7 - row of its byte is set; rows 8 and above never are. */
  lemma RowDrawnByRowBit(m: Machine, row: int)
    requires 0 <= row && SpriteAddress(m, row) < MemorySize
    ensures row >= SpriteWidth ==> !RowDrawn(m, row)
    ensures row < SpriteWidth ==>
      (RowDrawn(m, row) <==> (m.memory[SpriteAddress(m, row)] / Pow2(7 - row)) % 2 == 1)
  {
    MaskSelectsBit(m.memory[SpriteAddress(m, row)], row);
  }

  /** A display offset `col + row * 64` with col < 64 names row and col back. */
  lemma RowColumnOfOffset(d: int, row: int, col: int)
    requires 0 <= row && 0 <= col < DisplayWidth && d == col + row * DisplayWidth
    ensures d / DisplayWidth == row && d % DisplayWidth == col
  {
  }

  /** The cells toggled are exactly `x + col + (y + row) * 64` for the drawn rows and the 8 columns. */
  lemma HitCells(m: Machine, px: Byte, py: Byte, n: Nibble, k: int)
    requires RowsReadable(m, n)
    ensures Hit(m, px, py, n, k) <==>
      exists row, col :: 0 <= row < n && 0 <= col < SpriteWidth && RowDrawn(m, row)
        && k == CellIndex(px, py, row, col)
  {
    if Hit(m, px, py, n, k) {
      HitIsCell(m, px, py, n, k);
    }
    if exists row, col :: 0 <= row < n && 0 <= col < SpriteWidth && RowDrawn(m, row)
        && k == CellIndex(px, py, row, col) {
      var row, col :| 0 <= row < n && 0 <= col < SpriteWidth && RowDrawn(m, row)
        && k == CellIndex(px, py, row, col);
      CellIsHit(m, px, py, n, row, col);
    }
  }

  /** A hit cell sits at some drawn row and some column of the sprite. */
  lemma HitIsCell(m: Machine, px: Byte, py: Byte, n: Nibble, k: int)
    requires RowsReadable(m, n) && Hit(m, px, py, n, k)
    ensures var d := k - px - py * DisplayWidth;
      var row, col := d / DisplayWidth, d % DisplayWidth;
      0 <= row < n && 0 <= col < SpriteWidth && RowDrawn(m, row) && k == CellIndex(px, py, row, col)
  {
  }

  /** Every cell of a drawn row, in the 8 sprite columns, is hit. */
  lemma CellIsHit(m: Machine, px: Byte, py: Byte, n: Nibble, row: int, col: int)
    requires RowsReadable(m, n)
    requires 0 <= row < n && 0 <= col < SpriteWidth && RowDrawn(m, row)
    ensures Hit(m, px, py, n, CellIndex(px, py, row, col))
  {
    RowColumnOfOffset(col + row * DisplayWidth, row, col);
  }

  /**
   * Dxyn does not wrap at the right edge: column 4 of a drawn row 0 at x = 60, y = 0
   * is cell 64, the first cell of the next display row, and the draw toggles it.
   */
  lemma EdgeCrossing(m: Machine, x: Reg, y: Reg, n: Nibble, rnd: Byte)
    requires m.v[x] == 60 && m.v[y] == 0 && 1 <= n && RowsReadable(m, n) && RowDrawn(m, 0)
    ensures Hit(m, 60, 0, n, DisplayWidth)
    ensures Execute(m, Drw(x, y, n), rnd).Success? ==>
      Execute(m, Drw(x, y, n), rnd).value.display[DisplayWidth] == Flip(m.display[DisplayWidth])
  {
    CellIsHit(m, 60, 0, n, 0, 4);
    if Execute(m, Drw(x, y, n), rnd).Success? {
      DrawEffect(m, x, y, n, rnd);
    }
  }

  /** Nor at the bottom: a drawn row 0 at x = 60, y = 31 runs past the display, and Dxyn faults. */
  lemma EdgeOverrun(m: Machine, x: Reg, y: Reg, n: Nibble, rnd: Byte)
    requires m.v[x] == 60 && m.v[y] == 31 && 1 <= n && m.i < MemorySize && RowDrawn(m, 0)
    ensures Execute(m, Drw(x, y, n), rnd) == Failure(SpriteOutOfRange)
  {
    assert CellIndex(60, 31, 0, SpriteWidth - 1) >= DisplaySize;
  }

  /** The toggle `^= 1` swaps 0 and 1 and is its own inverse. */
  lemma FlipInvolution(c: Byte)
    ensures Flip(Flip(c)) == c && Flip(c) != c
    ensures Flip(c) == 1 <==> c == 0
  {
  }

  /** Dxyn toggles exactly the hit cells, sets VF to whether one of them was lit, and raises the dirty flag. */
  lemma DrawEffect(m: Machine, x: Reg, y: Reg, n: Nibble, rnd: Byte)
    requires Execute(m, Drw(x, y, n), rnd).Success?
    ensures SpriteFits(m, m.v[x], m.v[y], n)
    ensures var r := Execute(m, Drw(x, y, n), rnd).value;
      var px, py := m.v[x], m.v[y];
      && (forall k :: 0 <= k < DisplaySize ==> (r.display[k] != m.display[k] <==> Hit(m, px, py, n, k)))
      && (r.v[Flag] == 1 <==> exists k :: 0 <= k < DisplaySize && Hit(m, px, py, n, k) && m.display[k] == 1)
      && r.v[Flag] <= 1
      && (forall k :: 0 <= k < RegisterCount && k != Flag ==> r.v[k] == m.v[k])
      && r == Next(m).(v := r.v, display := r.display, drawScreen := true)
      && Draw(r).0 && !Draw(Draw(r).1).0
  {
    var px, py := m.v[x], m.v[y];
    forall k | 0 <= k < DisplaySize {
      FlipInvolution(m.display[k]);
    }
  }

  /** Dxyn faults exactly when a sprite byte or a toggled cell lies outside memory or the display. */
  lemma DrawFault(m: Machine, x: Reg, y: Reg, n: Nibble, rnd: Byte)
    ensures Execute(m, Drw(x, y, n), rnd).Failure? <==> !SpriteFits(m, m.v[x], m.v[y], n)
    ensures Execute(m, Drw(x, y, n), rnd).Failure? ==> Execute(m, Drw(x, y, n), rnd).error == SpriteOutOfRange
  {
  }

  /** A sprite fully on screen, with its bytes in memory, is drawn without a fault. */
  lemma OnScreenSpriteFits(m: Machine, x: Reg, y: Reg, n: Nibble)
    requires m.v[x] + SpriteWidth <= DisplayWidth && m.v[y] + n <= DisplaySize / DisplayWidth
    requires m.i + n <= MemorySize
    ensures DrawSprite(m, x, y, n).Success?
  {
    var px, py := m.v[x], m.v[y];
    forall row | 0 <= row < n
      ensures SpriteAddress(m, row) < MemorySize
      ensures CellIndex(px, py, row, SpriteWidth - 1) < DisplaySize
    {
      assert (py + row) * DisplayWidth <= 31 * DisplayWidth;
    }
  }

  /** Drawing the same sprite again at the same place restores the display; VF then reports the cells the first draw lit. */
  lemma DrawTwiceRestores(m: Machine, x: Reg, y: Reg, n: Nibble)
    requires x != Flag && y != Flag && DrawSprite(m, x, y, n).Success?
    ensures DrawSprite(DrawSprite(m, x, y, n).value, x, y, n).Success?
    ensures var twice := DrawSprite(DrawSprite(m, x, y, n).value, x, y, n).value;
      && twice.display == m.display
      && (twice.v[Flag] == 1 <==>
            exists k :: 0 <= k < DisplaySize && Hit(m, m.v[x], m.v[y], n, k) && m.display[k] == 0)
  {
    var once := DrawSprite(m, x, y, n).value;
    var px, py := m.v[x], m.v[y];
    assert once.v[x] == px && once.v[y] == py;
    forall row | 0 <= row < n
      ensures SpriteAddress(once, row) == SpriteAddress(m, row)
    {
    }
    forall row | 0 <= row < n
      ensures RowDrawn(once, row) == RowDrawn(m, row)
    {
    }
    assert SpriteFits(once, px, py, n);
    forall k | 0 <= k < DisplaySize
      ensures Hit(once, px, py, n, k) == Hit(m, px, py, n, k)
    {
    }
    var twice := DrawSprite(once, x, y, n).value;
    forall k | 0 <= k < DisplaySize
      ensures twice.display[k] == m.display[k]
    {
      FlipInvolution(m.display[k]);
    }
    if exists k :: 0 <= k < DisplaySize && Hit(m, px, py, n, k) && m.display[k] == 0 {
      var k :| 0 <= k < DisplaySize && Hit(m, px, py, n, k) && m.display[k] == 0;
      FlipInvolution(m.display[k]);
      assert Hit(once, px, py, n, k) && once.display[k] == 1;
    }
    if Collides(once, px, py, n) {
      var k :| 0 <= k < DisplaySize && Hit(once, px, py, n, k) && once.display[k] == 1;
      FlipInvolution(m.display[k]);
    }
  }

  // ---------------------------------------------------------------------------
  // Fx0A and the timers
  // ---------------------------------------------------------------------------

  /**
   * Fx0A with no key down writes only `opcode`: pc stays on the instruction, and the
   * early return skips the timer update.
   */
  lemma WaitWithoutKey(m: Machine, rnd: Byte)
    requires Fetch(m).Success? && Decode(Fetch(m).value).LdVxK?
    requires forall k :: 0 <= k < KeyCount ==> m.keys[k] == 0
    ensures Cycle(m, rnd) == Success(m.(opcode := Fetch(m).value))
  {
  }

  /** While no key is down, the waiting state is a fixed point of Cycle. */
  lemma WaitRepeats(m: Machine, rnd1: Byte, rnd2: Byte)
    requires Fetch(m).Success? && Decode(Fetch(m).value).LdVxK?
    requires forall k :: 0 <= k < KeyCount ==> m.keys[k] == 0
    ensures Cycle(m, rnd1).Success?
    ensures Cycle(Cycle(m, rnd1).value, rnd2) == Cycle(m, rnd1)
  {
    WaitWithoutKey(m, rnd1);
    var waiting := Cycle(m, rnd1).value;
    assert Fetch(waiting) == Fetch(m);
    WaitWithoutKey(waiting, rnd2);
  }

  /** With keys down, Fx0A loads the highest pressed key into Vx, advances pc and the timers tick. */
  lemma WaitWithKey(m: Machine, rnd: Byte)
    requires Fetch(m).Success? && Decode(Fetch(m).value).LdVxK?
    requires exists k :: 0 <= k < KeyCount && m.keys[k] != 0
    ensures Cycle(m, rnd).Success?
    ensures var x, r := Decode(Fetch(m).value).x, Cycle(m, rnd).value;
      && m.keys[r.v[x]] != 0
      && (forall k :: r.v[x] < k < KeyCount ==> m.keys[k] == 0)
      && r == Tick(m.(opcode := Fetch(m).value, v := m.v[x := r.v[x]], pc := (m.pc as int + 2) % 0x1_0000))
  {
  }

  /** A key pressed while Fx0A waits is loaded by the next cycle, which moves past the Fx0A. */
  lemma KeyEndsWait(m: Machine, key: Byte, rnd: Byte)
    requires Fetch(m).Success? && Decode(Fetch(m).value).LdVxK?
    requires forall k :: 0 <= k < KeyCount ==> m.keys[k] == 0
    requires key < KeyCount
    ensures Cycle(Key(m, key, true), rnd).Success?
    ensures var r := Cycle(Key(m, key, true), rnd).value;
      r.v[Decode(Fetch(m).value).x] == key && r.pc == (m.pc as int + 2) % 0x1_0000
  {
    var pressed := Key(m, key, true);
    assert Fetch(pressed) == Fetch(m) && pressed.keys[key] != 0;
    WaitWithKey(pressed, rnd);
  }

  /** A timer after one tick: one less, never below zero. */
  function Decremented(t: Byte): Byte
  {
    if t == 0 then 0 else t - 1
  }

  /** Only Fx15 and Fx18 write the timers. */
  lemma ExecuteKeepsTimers(m: Machine, ins: Instr, rnd: Byte)
    requires !ins.LdDtVx? && !ins.LdStVx? && Execute(m, ins, rnd).Success?
    ensures Execute(m, ins, rnd).value.delayTimer == m.delayTimer
    ensures Execute(m, ins, rnd).value.soundTimer == m.soundTimer
  {
  }

  /** Every completed cycle takes one from each nonzero timer; BEEP is printed when the sound timer runs out. */
  lemma CompletedCycleTicks(m: Machine, rnd: Byte)
    requires Cycle(m, rnd).Success?
    requires var ins := Decode(Fetch(m).value); !ins.LdDtVx? && !ins.LdStVx? && Ticks(m, ins)
    ensures Cycle(m, rnd).value.delayTimer == Decremented(m.delayTimer)
    ensures Cycle(m, rnd).value.soundTimer == Decremented(m.soundTimer)
    ensures Beeps(m, rnd) <==> m.soundTimer == 1
  {
    var op := Fetch(m).value;
    ExecuteKeepsTimers(m.(opcode := op), Decode(op), rnd);
  }

  /** Fx15 and Fx18 load a timer from Vx, and the same cycle's tick leaves Vx - 1. */
  lemma SetTimer(m: Machine, rnd: Byte)
    requires Fetch(m).Success?
    requires var ins := Decode(Fetch(m).value); ins.LdDtVx? || ins.LdStVx?
    ensures Cycle(m, rnd).Success?
    ensures var ins, r := Decode(Fetch(m).value), Cycle(m, rnd).value;
      && r.delayTimer == Decremented(if ins.LdDtVx? then m.v[ins.x] else m.delayTimer)
      && r.soundTimer == Decremented(if ins.LdStVx? then m.v[ins.x] else m.soundTimer)
      && (Beeps(m, rnd) <==> (if ins.LdStVx? then m.v[ins.x] else m.soundTimer) == 1)
  {
  }

  /** Cycle once for each random byte, stopping at the first fault. */
  function Run(m: Machine, rnds: seq<Byte>): Result<Machine, Fault>
    decreases |rnds|
  {
    if |rnds| == 0 then Success(m)
    else
      var next :- Cycle(m, rnds[0]);
      Run(next, rnds[1..])
  }

  /** A timer after `n` ticks. */
  function After(t: Byte, n: nat): Byte
  {
    if t <= n then 0 else t - n
  }

  /** Looping on a `1nnn` that jumps to itself, pc stays put while both timers run down one per cycle. */
  lemma {:induction false} IdleLoopCountsDown(m: Machine, rnds: seq<Byte>)
    requires Fetch(m).Success? && Decode(Fetch(m).value) == Jp(m.pc)
    ensures Run(m, rnds).Success?
    ensures var r := Run(m, rnds).value;
      && r.pc == m.pc && r.memory == m.memory && r.v == m.v && r.display == m.display
      && r.delayTimer == After(m.delayTimer, |rnds|) && r.soundTimer == After(m.soundTimer, |rnds|)
    decreases |rnds|
  {
    if |rnds| > 0 {
      var next := Cycle(m, rnds[0]).value;
      assert Fetch(next) == Fetch(m);
      IdleLoopCountsDown(next, rnds[1..]);
    }
  }

  // ---------------------------------------------------------------------------
  // The index register and memory: Fx1E, Fx29, Fx33, Fx55, Fx65
  // ---------------------------------------------------------------------------

  /** Fx1E adds modulo 65536 and sets no flag; Fx29 points I at the glyph of digit Vx. */
  lemma IndexArithmetic(m: Machine, x: Reg, rnd: Byte)
    ensures Execute(m, AddI(x), rnd) == Success(Next(m).(i := (m.i as int + m.v[x]) % 0x1_0000))
    ensures Execute(m, LdF(x), rnd) == Success(Next(m).(i := m.v[x] as int * 5))
  {
  }

  /** After Fx29 on a digit, the five bytes at I are that digit's glyph, once the font is loaded. */
  lemma GlyphAddress(m: Machine, x: Reg, rnd: Byte)
    requires m.memory[..|FontSet|] == FontSet && m.v[x] < 16
    ensures var r := Execute(m, LdF(x), rnd).value;
      r.memory[r.i..r.i + GlyphSize] == FontSet[m.v[x] * GlyphSize..(m.v[x] + 1) * GlyphSize]
  {
    var r := Execute(m, LdF(x), rnd).value;
    assert r.memory == m.memory && r.i == m.v[x] * GlyphSize;
    assert (m.v[x] + 1) * GlyphSize <= |FontSet|;
    assert r.memory[r.i..r.i + GlyphSize] == m.memory[..|FontSet|][r.i..r.i + GlyphSize];
  }

  /** `(b % 100) / 10` is the tens digit `(b / 10) % 10`. */
  lemma TensDigit(b: Byte)
    ensures (b % 100) / 10 == (b / 10) % 10
  {
    var h, t, u := b / 100, (b / 10) % 10, b % 10;
    assert b == h * 100 + t * 10 + u;
    assert b % 100 == t * 10 + u;
  }

  /** Fx33 writes the hundreds digit to I and the tens digit to both I+1 and I+2. */
  lemma StoreBcdDigits(m: Machine, x: Reg, rnd: Byte)
    ensures Execute(m, LdB(x), rnd).Success? <==> m.i + 2 < MemorySize
    ensures Execute(m, LdB(x), rnd).Failure? ==> Execute(m, LdB(x), rnd).error == MemoryOutOfRange
    ensures Execute(m, LdB(x), rnd).Success? ==>
      var b, tens := m.v[x], (m.v[x] / 10) % 10;
      Execute(m, LdB(x), rnd).value ==
        Next(m).(memory := m.memory[m.i := b / 100][m.i + 1 := tens][m.i + 2 := tens])
  {
    TensDigit(m.v[x]);
  }

  /** For Vx = 123 the three bytes are 1, 2, 2: the units digit 3 is never stored. */
  lemma StoreBcdExample(m: Machine, x: Reg, rnd: Byte)
    requires m.v[x] == 123 && m.i + 2 < MemorySize
    ensures var r := Execute(m, LdB(x), rnd).value;
      r.memory[m.i] == 1 && r.memory[m.i + 1] == 2 && r.memory[m.i + 2] == 2
  {
  }

  /** The slots of V0..Vx are all in memory exactly when I + x is, and then slot k is I + k. */
  lemma SlotsContiguous(m: Machine, x: Reg)
    ensures SlotsInMemory(m, x) <==> m.i + x < MemorySize
    ensures m.i + x < MemorySize ==> forall k :: 0 <= k <= x ==> Slot(m, k) == m.i + k
  {
    if SlotsInMemory(m, x) {
      assert Slot(m, 0) < MemorySize && Slot(m, x) < MemorySize;
    }
  }

  /** Fx55 copies V0..Vx to I..I+x, leaves the rest of memory alone and sets I to x + 1. */
  lemma StoreRegistersEffect(m: Machine, x: Reg, rnd: Byte)
    ensures Execute(m, LdIVx(x), rnd).Success? <==> m.i + x < MemorySize
    ensures Execute(m, LdIVx(x), rnd).Failure? ==> Execute(m, LdIVx(x), rnd).error == MemoryOutOfRange
    ensures Execute(m, LdIVx(x), rnd).Success? ==>
      var r := Execute(m, LdIVx(x), rnd).value;
      && (forall k :: 0 <= k <= x ==> r.memory[m.i + k] == m.v[k])
      && (forall a :: 0 <= a < MemorySize && !(m.i <= a <= m.i + x) ==> r.memory[a] == m.memory[a])
      && r == Next(m).(memory := r.memory, i := x + 1)
  {
    SlotsContiguous(m, x);
    if SlotsInMemory(m, x) {
      StoredSlots(m, x);
    }
  }

  /** The memory that Fx55 leaves when every slot is in memory. */
  lemma StoredSlots(m: Machine, x: Reg)
    requires m.i + x < MemorySize
    ensures StoreRegisters(m, x).Success?
    ensures var r := StoreRegisters(m, x).value;
      && (forall k :: 0 <= k <= x ==> r.memory[m.i + k] == m.v[k])
      && (forall a :: 0 <= a < MemorySize && !(m.i <= a <= m.i + x) ==> r.memory[a] == m.memory[a])
  {
    SlotsContiguous(m, x);
    var r := StoreRegisters(m, x).value;
    forall k | 0 <= k <= x
      ensures r.memory[m.i + k] == m.v[k]
    {
      assert Slot(m, k) == m.i + k;
      assert Offset(m, m.i + k) == k;
    }
    forall a | 0 <= a < MemorySize && !(m.i <= a <= m.i + x)
      ensures r.memory[a] == m.memory[a]
    {
      assert Offset(m, a) > x;
    }
  }

  /** Fx65 loads V0..Vx from I..I+x, keeps V(x+1)..VF and sets I to x + 1. */
  lemma LoadRegistersEffect(m: Machine, x: Reg, rnd: Byte)
    ensures Execute(m, LdVxI(x), rnd).Success? <==> m.i + x < MemorySize
    ensures Execute(m, LdVxI(x), rnd).Failure? ==> Execute(m, LdVxI(x), rnd).error == MemoryOutOfRange
    ensures Execute(m, LdVxI(x), rnd).Success? ==>
      var r := Execute(m, LdVxI(x), rnd).value;
      && (forall k :: 0 <= k <= x ==> r.v[k] == m.memory[m.i + k])
      && (forall k :: x < k < RegisterCount ==> r.v[k] == m.v[k])
      && r == Next(m).(v := r.v, i := x + 1)
  {
    SlotsContiguous(m, x);
    if SlotsInMemory(m, x) {
      var r := Execute(m, LdVxI(x), rnd).value;
      forall k | 0 <= k <= x
        ensures r.v[k] == m.memory[m.i + k]
      {
        assert Slot(m, k) == m.i + k;
      }
    }
  }

  /** Fx55 then Fx65 from the same I gives back the saved registers. */
  lemma StoreThenLoad(m: Machine, x: Reg, rnd: Byte)
    requires Execute(m, LdIVx(x), rnd).Success?
    ensures var saved := Execute(m, LdIVx(x), rnd).value.(i := m.i);
      Execute(saved, LdVxI(x), rnd).Success? && Execute(saved, LdVxI(x), rnd).value.v == m.v
  {
    StoreRegistersEffect(m, x, rnd);
    var saved := Execute(m, LdIVx(x), rnd).value.(i := m.i);
    LoadRegistersEffect(saved, x, rnd);
    var r := Execute(saved, LdVxI(x), rnd).value;
    assert r.v == m.v;
  }

  // ---------------------------------------------------------------------------
  // Init and LoadROM
  // ---------------------------------------------------------------------------

  /** Init: font in the first 80 bytes, everything else cleared, timers and keys kept. */
  lemma InitState(m: Machine)
    ensures var r := Init(m);
      && r.pc == ProgramStart && r.sp == 0 && r.i == 0 && r.opcode == 0 && r.drawScreen
      && r.memory[..|FontSet|] == FontSet
      && (forall a :: |FontSet| <= a < MemorySize ==> r.memory[a] == 0)
      && (forall k :: 0 <= k < DisplaySize ==> r.display[k] == 0)
      && (forall k :: 0 <= k < StackSize ==> r.stack[k] == 0)
      && (forall k :: 0 <= k < RegisterCount ==> r.v[k] == 0)
      && r.delayTimer == m.delayTimer && r.soundTimer == m.soundTimer && r.keys == m.keys
  {
  }

  /** A program of 4096 - 512 bytes fits; one byte more does not. */
  lemma LoadSizeBoundary(m: Machine)
    ensures LoadROM(m, Zeros(MaxProgramSize)).Success?
    ensures LoadROM(m, Zeros(MaxProgramSize + 1)) == Failure(ProgramTooLarge)
  {
  }

  /** After Init and LoadROM the first fetch reads the program's first two bytes. */
  lemma LoadedProgramFetched(m: Machine, program: seq<Byte>)
    requires 2 <= |program| <= MaxProgramSize
    ensures LoadROM(Init(m), program).Success?
    ensures var r := LoadROM(Init(m), program).value;
      r.pc == ProgramStart && Fetch(r) == Success(program[0] as int * 0x100 + program[1])
  {
    var booted := Init(m);
    assert booted.pc == ProgramStart;
    var r := LoadROM(booted, program).value;
    assert r.pc == ProgramStart;
    assert r.memory[ProgramStart] == program[0] && r.memory[ProgramStart + 1] == program[1];
    assert Wrap16(r.pc + 1) == ProgramStart + 1;
  }

  /** The program `6014 A200` after Init and LoadROM. */
  lemma BootTwoInstructions(m: Machine)
    ensures LoadROM(Init(m), [0x60, 0x14, 0xA2, 0x00]).Success?
    ensures var booted := LoadROM(Init(m), [0x60, 0x14, 0xA2, 0x00]).value;
      && booted.pc == 0x200 && booted.memory[0x200] == 0x60 && booted.memory[0x201] == 0x14
      && booted.memory[0x202] == 0xA2 && booted.memory[0x203] == 0x00
  {
  }

  /** The cycle on `6014`. */
  lemma CycleLoadsV0(m: Machine, rnd: Byte)
    requires m.pc == 0x200 && m.memory[0x200] == 0x60 && m.memory[0x201] == 0x14
    ensures Cycle(m, rnd).Success?
    ensures var r := Cycle(m, rnd).value;
      r.pc == 0x202 && r.v[0] == 0x14 && r.memory == m.memory
  {
    assert Fetch(m) == Success(0x6014);
    FieldsOfByteForm(0x6014, 0x6, 0x0, 0x14);
  }

  /** The cycle on `A200`. */
  lemma CycleLoadsI(m: Machine, rnd: Byte)
    requires m.pc == 0x202 && m.memory[0x202] == 0xA2 && m.memory[0x203] == 0x00
    ensures Cycle(m, rnd).Success?
    ensures var r := Cycle(m, rnd).value;
      r.pc == 0x204 && r.i == 0x200 && r.v == m.v
  {
    assert Fetch(m) == Success(0xA200);
    FieldsOfAddrForm(0xA200, 0xA, 0x200);
  }

  /** `6014` then `A200`: after two cycles V0 = 0x14, I = 0x200 and pc = 0x204. */
  lemma TwoInstructionProgram(m: Machine, rnd1: Byte, rnd2: Byte)
    ensures LoadROM(Init(m), [0x60, 0x14, 0xA2, 0x00]).Success?
    ensures var booted := LoadROM(Init(m), [0x60, 0x14, 0xA2, 0x00]).value;
      && Run(booted, [rnd1, rnd2]).Success?
      && Run(booted, [rnd1, rnd2]).value.v[0] == 0x14
      && Run(booted, [rnd1, rnd2]).value.i == 0x200
      && Run(booted, [rnd1, rnd2]).value.pc == 0x204
  {
    BootTwoInstructions(m);
    var booted := LoadROM(Init(m), [0x60, 0x14, 0xA2, 0x00]).value;
    CycleLoadsV0(booted, rnd1);
    var first := Cycle(booted, rnd1).value;
    CycleLoadsI(first, rnd2);
    var second := Cycle(first, rnd2).value;
    assert [rnd1, rnd2][1..] == [rnd2] && [rnd2][1..] == [];
    assert Run(booted, [rnd1, rnd2]) == Run(first, [rnd2]);
    assert Run(first, [rnd2]) == Run(second, []);
  }
}
