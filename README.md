# CHIP-8 interpreter core in Dafny

This project models the CHIP-8 virtual machine in `pkg/cpu.go`. The Go struct
`CHIP8` holds the machine state:

- 4 KiB of memory, a 16-entry call stack, sixteen 8-bit registers V0..VF;
- the 16-bit index register I and program counter pc, and the 8-bit stack pointer sp;
- a 64 x 32 display of one byte per cell and the `drawScreen` dirty flag;
- the delay and sound timers, and sixteen key flags.

The interpreter's entry points are `Init`, `Cycle` (fetch, decode, execute and timer
update), `Draw`, `Key`, `Buffer` and `LoadROM`.

The project has three modules:

- `spec.dfy`, module `Chip8Spec`: the machine as a value. `Machine` is a datatype
  holding the fields of the Go struct, with fixed-length sequences in place of the Go
  arrays. Fetch, decode and the effect of each instruction are functions on it:
  - `Decode` maps a 16-bit word to one of the 34 recognised instructions of the
    `Instr` datatype, or to `Unknown` (cpu.go does not implement 0nnn SYS).
  - `Execute` maps an instruction to its effect, and `Cycle` is one call of
    `CHIP8.Cycle`.
  - Every index panic Go would raise becomes a `Fault` in a `Result`.
  - uint8 and uint16 wrap-around is written out with `Wrap8` and `Wrap16`.
- `cpu.dfy`, module `Chip8Cpu`: the Go struct as the class `CHIP8`.
  - Its fields are those of the struct, and the Go arrays are Dafny arrays that the
    methods update in place.
  - `State()` reads the fields as a `Machine`.
  - Every method, with its loops (the clearing loops of `Init` and 00E0, the nested
    Dxyn loops, the Fx0A key scan, the Fx55/Fx65 copies and the `LoadROM` copy), is
    proved to move `State()` exactly as the `Chip8Spec` function says.
  - `Cycle`'s opcode switch is split into one method per group of instructions.
- `properties.dfy`, module `Chip8Properties`: what the interpreter guarantees, proved
  about the `Chip8Spec` functions. It covers:
  - the decode/encode round trip and the loose decoding;
  - the no-op behaviour of unknown opcodes;
  - CALL/RET, jumps and skips, and the flags of the ALU;
  - the exact cells Dxyn toggles and the draw-twice identity;
  - the Fx0A wait and the timers, and the BCD and register copies;
  - boot, and a two-instruction program.

The random byte of Cxkk is a parameter of `Cycle` (`rnd`). Two diagnostics of the Go
code are returned from the class's `Cycle`:

- `beep`: "BEEP!" is printed;
- `logged`: "Unknown opcode" is printed.

## Quirks of the code that the model keeps

The comments of `pkg/cpu.go` name the instructions with the mnemonics of Cowgod's
Chip-8 Technical Reference, section 3.1. In the places below the code behaves
differently from that reference or from the usual CHIP-8 design, and the model does
what the code does:

- Fx0A with no key pressed returns before the timer update. Neither timer ticks on
  such a cycle, and pc stays on the Fx0A (pkg/cpu.go:256-258).
- With several keys pressed, Fx0A loads the highest pressed index, because the scan
  keeps the last key it sees (pkg/cpu.go:250-255).
- Fx33 stores `(Vx % 100) / 10` as its third digit. That is the tens digit again, so
  the units digit is never stored (pkg/cpu.go:275).
- Fx55 and Fx65 end with `I = x + 1`, not `I = I + x + 1` (pkg/cpu.go:281, pkg/cpu.go:287).
- Dxyn tests bit `0x80 >> row` of each sprite byte, not the bit of the column. So a
  row is drawn whole (all 8 cells toggled) or not at all, and rows 8 and above never
  draw (pkg/cpu.go:216).
- An unrecognised opcode leaves pc unchanged, so the same word is fetched again on the
  next cycle. The timers still tick (pkg/cpu.go:106-107, pkg/cpu.go:185-186,
  pkg/cpu.go:289-290).
- The E family has no default case, so its unknown words print nothing.
- Decoding is loose:
  - any `0nn0` is CLS and any `0nnE` is RET;
  - 5xy? and 9xy? ignore the low nibble;
  - 8xy6 and 8xyE ignore Vy.
- 8xy4, 8xy5 and 8xy7 write VF before computing Vx. With x = F the flag is then
  overwritten, and with y = F the flag takes part in the arithmetic.
- A zeroed word, 0000, decodes as CLS.
- A CALL with a full stack, a RET with an empty stack, a SKP/SKNP with Vx >= 16, and
  memory or display accesses beyond the arrays are Go index panics. The model makes
  each one a `Fault`.

## Model

| member | source | states |
|---|---|---|
| Chip8Spec.Fetch | pkg/cpu.go:86 | fetch succeeds iff pc + 1 < 4096; the word's high byte is memory[pc] and its low byte memory[pc+1] (big-endian); otherwise FetchOutOfRange |
| Chip8Spec.Decode | pkg/cpu.go:89-294 | the instruction is Unknown exactly on the unrecognised encodings (family 0 low nibble not 0/E, family 8 low nibble 8..D or F, family E low byte not 9E/A1, family F low byte outside the nine listed); an Unknown is logged iff its family is not E |
| Chip8Spec.AddWithCarry | pkg/cpu.go:154-161 | 8xy4 changes only registers; for x, y not F, VF is 1 iff Vx + Vy > 255 and 0 otherwise, Vx is the sum mod 256, and every other register is kept |
| Chip8Spec.SubWithBorrow | pkg/cpu.go:162-169 | 8xy5 changes only registers; for x, y not F, VF is 1 iff Vx > Vy (strictly), Vx is Vx - Vy mod 256, and every other register is kept |
| Chip8Spec.SubReversed | pkg/cpu.go:173-180 | 8xy7 changes only registers; for x, y not F, VF is 1 iff Vx <= Vy, Vx is Vy - Vx mod 256, and every other register is kept |
| Chip8Spec.LastPressed | pkg/cpu.go:249-255 | the key scan finds nothing iff no key is down; otherwise it finds a pressed key above which no key is pressed |
| Chip8Spec.LoadROM | pkg/cpu.go:333-341 | loading succeeds iff the program has at most 4096 - 512 bytes; on success memory[512 + k] is byte k, every other cell and every other field is unchanged; otherwise ProgramTooLarge |
| Chip8Spec.Unrecognized | pkg/cpu.go:89-294 | the words no case matches, which reach the defaults at lines 106, 185 and 289 or the end of the E switch at 242; `Decode` returns `Unknown` exactly on them, and UnknownOpcodeIsNoOp proves a cycle on one only records the opcode and ticks |
| Chip8Spec.Encode | pkg/cpu.go:89-294 | the canonical word of each mnemonic in the case comments; DecodeEncode proves `Decode` inverts it and EncodeInjective that distinct instructions get distinct words |
| Chip8Spec.Return | pkg/cpu.go:99-102 | 00EE with sp decremented as a uint8 before the stack read; ReturnPops gives pc = slot + 2 and the smaller sp, StackFaults the underflow iff sp = 0 and success iff 1 <= sp <= 16 |
| Chip8Spec.CallSubroutine | pkg/cpu.go:111-114 | 2nnn; CallPushes gives the pushed pc, sp + 1 and pc = nnn, StackFaults the fault iff sp >= 16, CallReturnRoundTrip the round trip with Return |
| Chip8Spec.SpriteFits | pkg/cpu.go:213-220 | no row read or cell access of the draw loops is out of range; DrawFault proves Dxyn faults iff it fails, OnScreenSpriteFits that an on-screen sprite in memory satisfies it |
| Chip8Spec.Hit | pkg/cpu.go:213-223 | the cells the loops toggle; HitCells, HitIsCell and CellIsHit prove they are exactly `x + col + (y + row) * 64` for a drawn row below n and a column below 8 |
| Chip8Spec.Collides | pkg/cpu.go:216-219 | some toggled cell was lit; DrawEffect proves VF ends 1 iff it holds and 0 otherwise |
| Chip8Spec.Sprite | pkg/cpu.go:213-223 | the display after the loops; DrawEffect proves exactly the hit cells change and DrawTwiceRestores that a second draw restores the display |
| Chip8Spec.DrawSprite | pkg/cpu.go:204-225 | Dxyn; DrawEffect, DrawFault and DrawTwiceRestores state its effect, its faults and the draw-twice identity |
| Chip8Spec.WaitForKey | pkg/cpu.go:248-259 | Fx0A; WaitWithoutKey proves nothing changes with no key down, WaitWithKey that Vx gets the highest pressed key and pc advances, KeyEndsWait that a press ends the wait |
| Chip8Spec.StoreBcd | pkg/cpu.go:272-276 | Fx33; StoreBcdDigits proves success iff I + 2 < 4096 and the hundreds and twice the tens digit stored, StoreBcdExample gives 1, 2, 2 for 123 |
| Chip8Spec.StoreRegisters | pkg/cpu.go:277-282 | Fx55; StoreRegistersEffect and StoredSlots prove success iff I + x < 4096, V0..Vx at I..I+x, the rest kept and I = x + 1 |
| Chip8Spec.LoadRegisters | pkg/cpu.go:283-288 | Fx65; LoadRegistersEffect proves success iff I + x < 4096, V0..Vx from I..I+x, the rest kept and I = x + 1; StoreThenLoad that it undoes StoreRegisters |
| Chip8Spec.Execute | pkg/cpu.go:89-294 | the opcode switch; the lemmas of `Chip8Properties` state each instruction's effect, and ExecuteKeepsTimers that only Fx15 and Fx18 write the timers |
| Chip8Spec.Ticks | pkg/cpu.go:256-258 | the timer update is reached unless Fx0A finds no key; WaitWithoutKey and CompletedCycleTicks prove the two sides |
| Chip8Spec.Tick | pkg/cpu.go:296-306 | the timer update; CompletedCycleTicks proves each nonzero timer drops by one and zero timers stay 0, IdleLoopCountsDown the count over n cycles |
| Chip8Spec.Cycle | pkg/cpu.go:84-307 | fetch, decode, execute and tick; CHIP8.Cycle is proved equal to it, and UnknownOpcodeIsNoOp, WaitRepeats, IdleLoopCountsDown and TwoInstructionProgram are stated about it |
| Chip8Spec.Beeps | pkg/cpu.go:301-304 | BEEP is printed: the timer update runs with the sound timer at 1; CompletedCycleTicks and SetTimer characterise it |
| Chip8Spec.Logged | pkg/cpu.go:89-294 | "Unknown opcode" is printed (lines 107, 186 and 290); UnknownOpcodeIsNoOp proves it holds iff the unrecognised word's family is not E |
| Chip8Spec.Init | pkg/cpu.go:54-82 | the reset; InitState proves pc 0x200, the zeroed fields, the font at 0..79 and zeros above, with timers and keys kept |
| Chip8Spec.Draw | pkg/cpu.go:313-317 | DrawConsumesFlag proves Draw returns the dirty flag and a second Draw returns false |
| Chip8Spec.Key | pkg/cpu.go:319-325 | records a press as 1 and a release as 0; KeyEndsWait proves a press ends an Fx0A wait |
| Chip8Cpu.CHIP8.constructor | pkg/cpu.go:28-52 | the zero value of the struct: arrays of the Go sizes, every field and every cell zero |
| Chip8Cpu.CHIP8.Init | pkg/cpu.go:54-82 | the new state is Chip8Spec.Init of the old one: pc 0x200, opcode, I and sp 0, drawScreen set, display, stack and registers cleared, memory the font followed by zeros; timers and keys kept |
| Chip8Cpu.CHIP8.ClearStack | pkg/cpu.go:67-69 | after the loop every stack slot is 0 and nothing else changes |
| Chip8Cpu.CHIP8.ClearRegisters | pkg/cpu.go:71-73 | after the loop every register is 0 and nothing else changes |
| Chip8Cpu.CHIP8.ClearMemory | pkg/cpu.go:75-77 | after the loop every memory cell is 0 and nothing else changes |
| Chip8Cpu.CHIP8.LoadFont | pkg/cpu.go:79-81 | over cleared memory, the loop leaves the 80 font bytes at 0..79 and zeros above |
| Chip8Cpu.CHIP8.ClearDisplay | pkg/cpu.go:93-95 | after the loop every display cell is 0 and nothing else changes |
| Chip8Cpu.CHIP8.Cycle | pkg/cpu.go:84-307 | when the cycle does not panic, the new state is Chip8Spec.Cycle of the old one; beep iff BEEP is printed, logged iff "Unknown opcode" is printed |
| Chip8Cpu.CHIP8.UpdateTimers | pkg/cpu.go:296-306 | each nonzero timer is decremented, zero timers stay 0, and beep iff the sound timer was 1 |
| Chip8Cpu.CHIP8.Execute | pkg/cpu.go:89-294 | the opcode switch moves the state as Chip8Spec.Execute says, and reports whether the timer update is reached (false only for Fx0A with no key) |
| Chip8Cpu.CHIP8.ExecuteFlow | pkg/cpu.go:92-114 | 00E0, 00EE, 1nnn, 2nnn and Bnnn as Chip8Spec.Execute says |
| Chip8Cpu.CHIP8.ExecuteSkip | pkg/cpu.go:115-132 | 3xkk, 4xkk, 5xy0, 9xy0, Ex9E and ExA1 as Chip8Spec.Execute says |
| Chip8Cpu.CHIP8.SkipNextIf | pkg/cpu.go:116-120 | pc moves by 4 when the condition holds and by 2 otherwise (mod 65536), and nothing else changes |
| Chip8Cpu.CHIP8.ExecuteLoad | pkg/cpu.go:133-144 | 6xkk, 7xkk, 8xy0 and Cxkk as Chip8Spec.Execute says, with Cxkk storing rnd AND kk |
| Chip8Cpu.CHIP8.ExecuteBitwise | pkg/cpu.go:145-153 | 8xy1, 8xy2 and 8xy3 as Chip8Spec.Execute says |
| Chip8Cpu.CHIP8.ExecuteFlagged | pkg/cpu.go:154-183 | 8xy4, 8xy5, 8xy6, 8xy7 and 8xyE as Chip8Spec.Execute says |
| Chip8Cpu.CHIP8.LoadRegister | pkg/cpu.go:133-135 | Vx is set to the byte, pc advances by 2, and nothing else changes |
| Chip8Cpu.CHIP8.AddRegisters | pkg/cpu.go:154-161 | 8xy4 moves the state to Chip8Spec.AddWithCarry and then advances pc |
| Chip8Cpu.CHIP8.SubtractRegisters | pkg/cpu.go:162-169 | 8xy5 moves the state to Chip8Spec.SubWithBorrow and then advances pc |
| Chip8Cpu.CHIP8.SubtractReversed | pkg/cpu.go:173-180 | 8xy7 moves the state to Chip8Spec.SubReversed and then advances pc |
| Chip8Cpu.CHIP8.SetRegister | pkg/cpu.go:156 | one register write, and nothing else changes |
| Chip8Cpu.CHIP8.ExecuteTimerOrKey | pkg/cpu.go:245-265 | Fx07, Fx0A, Fx15 and Fx18 as Chip8Spec.Execute says; `ticks` is false exactly for Fx0A with no key pressed |
| Chip8Cpu.CHIP8.ExecuteIndex | pkg/cpu.go:195-271 | Annn, Fx1E and Fx29 as Chip8Spec.Execute says |
| Chip8Cpu.CHIP8.ExecuteMemory | pkg/cpu.go:204-288 | Dxyn, Fx33, Fx55 and Fx65 as Chip8Spec.Execute says |
| Chip8Cpu.CHIP8.StoreDigits | pkg/cpu.go:272-276 | the three writes of Fx33 give Chip8Spec.StoreBcd: hundreds at I, the tens digit at I+1 and I+2 |
| Chip8Cpu.CHIP8.DrawSprite | pkg/cpu.go:204-225 | Dxyn gives Chip8Spec.DrawSprite: VF is whether a toggled cell was lit, the hit cells are flipped, and the dirty flag is set |
| Chip8Cpu.CHIP8.DrawRows | pkg/cpu.go:213-223 | the outer loop over n rows leaves exactly the hit cells flipped and VF equal to the collision flag |
| Chip8Cpu.CHIP8.DrawRow | pkg/cpu.go:215-222 | the inner loop over 8 columns extends the flipped cells and the collision flag by one sprite row |
| Chip8Cpu.CHIP8.DrawCell | pkg/cpu.go:216-221 | one inner pass flips the cell of that column iff the row is drawn, and sets VF if that cell was lit |
| Chip8Cpu.CHIP8.WaitForKey | pkg/cpu.go:248-259 | the key scan gives Chip8Spec.WaitForKey: with a key down, Vx is the highest pressed index and pc advances; otherwise the state is unchanged; `pressed` iff some key is down |
| Chip8Cpu.CHIP8.StoreRegisters | pkg/cpu.go:277-282 | the copy loop gives Chip8Spec.StoreRegisters: V0..Vx at I..I+x, the rest of memory kept, I = x + 1 |
| Chip8Cpu.CHIP8.LoadRegisters | pkg/cpu.go:283-288 | the copy loop gives Chip8Spec.LoadRegisters: V0..Vx from I..I+x, the other registers kept, I = x + 1 |
| Chip8Cpu.CHIP8.Buffer | pkg/cpu.go:309-311 | the result has 2048 cells, each equal to the display cell at the same index |
| Chip8Cpu.CHIP8.Draw | pkg/cpu.go:313-317 | returns the dirty flag and leaves it false; nothing else changes |
| Chip8Cpu.CHIP8.Key | pkg/cpu.go:319-325 | key flag k becomes 1 on a press and 0 on a release; nothing else changes |
| Chip8Cpu.CHIP8.LoadROM | pkg/cpu.go:333-341 | the size check and copy give Chip8Spec.LoadROM; on error nothing changes |
| Chip8Properties.DecodeEncode | pkg/cpu.go:89-294 | decoding the canonical word of any recognised instruction gives that instruction back |
| Chip8Properties.DecodeEncodeJumps | pkg/cpu.go:109-114 | the round trip for 1nnn, 2nnn, Annn and Bnnn |
| Chip8Properties.DecodeEncodeImmediate | pkg/cpu.go:115-138 | the round trip for 3xkk, 4xkk, 6xkk, 7xkk and Cxkk |
| Chip8Properties.DecodeEncodeCompare | pkg/cpu.go:90-132 | the round trip for 00E0, 00EE, 5xy0, 9xy0 and Dxyn |
| Chip8Properties.DecodeEncodeLogic | pkg/cpu.go:140-153 | the round trip for 8xy0 to 8xy3 |
| Chip8Properties.DecodeEncodeArith | pkg/cpu.go:154-183 | the round trip for 8xy4 to 8xyE |
| Chip8Properties.DecodeEncodeKeys | pkg/cpu.go:226-265 | the round trip for Ex9E, ExA1, Fx07, Fx0A, Fx15 and Fx18 |
| Chip8Properties.DecodeEncodeIndex | pkg/cpu.go:266-288 | the round trip for Fx1E, Fx29, Fx33, Fx55 and Fx65 |
| Chip8Properties.EncodeInjective | pkg/cpu.go:89-294 | distinct recognised instructions have distinct canonical words |
| Chip8Properties.LooseDecoding | pkg/cpu.go:91-194 | 0120 is CLS, 01FE is RET, 5AB7 is SE VA, VB, 9AB1 is SNE VA, VB and 8AB6 is SHR VA, although none of them is the canonical word |
| Chip8Properties.LooseDecodingAllWords | pkg/cpu.go:89-194 | for every word: family 0 with low nibble 0 is CLS and with low nibble E is RET, family 5 is SE Vx, Vy and family 9 SNE Vx, Vy whatever the low nibble; 0000 is CLS |
| Chip8Properties.UnknownOpcodeIsNoOp | pkg/cpu.go:104-107 | a cycle on any unrecognised word (this default, and those at lines 185-186, 242 and 289-290) only records the opcode and ticks the timers; pc is unchanged; the diagnostic is printed iff the family is not E |
| Chip8Properties.UnknownOpcodeExamples | pkg/cpu.go:226-242 | 0001, 800D and F1FF are unknown and logged; E1A2 is unknown and not logged |
| Chip8Properties.CallPushes | pkg/cpu.go:111-114 | with sp < 16, 2nnn stores pc at stack[sp], keeps the other slots, increments sp and jumps to nnn, changing nothing else |
| Chip8Properties.ReturnPops | pkg/cpu.go:99-102 | 00EE with sp = s + 1 and stack[s] = p sets sp to s and pc to p + 2 (mod 65536), changing nothing else |
| Chip8Properties.CallReturnRoundTrip | pkg/cpu.go:99-114 | CALL then RET returns to the word after the CALL with sp restored; only the stack slot stays written |
| Chip8Properties.StackFaults | pkg/cpu.go:99-114 | CALL faults iff sp >= 16; RET underflows iff sp = 0, and succeeds iff 1 <= sp <= 16 |
| Chip8Properties.Jumps | pkg/cpu.go:109-200 | 1nnn sets pc to nnn and nothing else; Bnnn sets pc to nnn + V0 + 2 and nothing else |
| Chip8Properties.SkipRule | pkg/cpu.go:115-240 | every skip instruction sets pc to pc + 4 when its condition holds and pc + 2 otherwise, and changes nothing else; Ex9E/ExA1 fault iff Vx >= 16 |
| Chip8Properties.AddImmediate | pkg/cpu.go:136-138 | 7xkk sets Vx to Vx + kk mod 256, keeps every other register (VF included) and advances pc |
| Chip8Properties.LoadThenAdd | pkg/cpu.go:133-138 | 6xkk then 7x00 leaves kk in Vx; 6xFF then 7x01 leaves 0 with VF untouched |
| Chip8Properties.AddCarries | pkg/cpu.go:154-161 | with x, y not F, 8xy4 sets VF iff Vx + Vy > 255 and Vx to the sum mod 256, keeps the other registers and advances pc |
| Chip8Properties.SubBorrows | pkg/cpu.go:162-169 | with x, y not F, 8xy5 sets VF iff Vx > Vy and Vx to Vx - Vy mod 256, keeps the other registers and advances pc |
| Chip8Properties.SubnBorrows | pkg/cpu.go:173-180 | with x, y not F, 8xy7 sets VF iff Vx <= Vy and Vx to Vy - Vx mod 256, keeps the other registers and advances pc |
| Chip8Properties.FlagDestinationLosesFlag | pkg/cpu.go:154-169 | with x = F, 8Fy4 and 8Fy5 leave in VF the result computed from the just-written flag, not the flag |
| Chip8Properties.AddFromFlag | pkg/cpu.go:154-161 | with y = F (x not F), 8xF4 computes the carry from Vx + VF, writes it to VF, and then adds that carry, not the old VF, to Vx |
| Chip8Properties.SubnIntoFlag | pkg/cpu.go:173-180 | with x = F, 8Fy7 writes VF = (VF <= Vy) first and then leaves Vy minus that flag in VF |
| Chip8Properties.ShiftRight | pkg/cpu.go:170-172 | 8xy6 decodes whatever y is; it sets Vx to Vx / 2, keeps every other register (VF included) and advances pc |
| Chip8Properties.ShiftLeft | pkg/cpu.go:181-183 | 8xyE decodes whatever y is; it sets Vx to 2 Vx mod 256 (the top bit dropped), keeps every other register (VF included) and advances pc |
| Chip8Properties.ClearScreen | pkg/cpu.go:92-97 | 00E0 blanks every cell, sets the dirty flag and advances pc; Draw then reports true once and false after |
| Chip8Properties.DrawConsumesFlag | pkg/cpu.go:313-317 | a second Draw returns false, because the first clears the flag; its first clause only unfolds the definition (the flag returned, the rest kept) |
| Chip8Properties.MaskSelectsBit | pkg/cpu.go:216 | `0x80 >> row` selects bit 7 - row of the byte for rows below 8 and nothing for rows 8 and above (the helper `Pow2` is only the bit weight 2^k and states nothing of the source) |
| Chip8Properties.RowDrawnByRowBit | pkg/cpu.go:214-216 | sprite row `row` is drawn iff bit 7 - row of its byte is set; rows 8 and above are never drawn |
| Chip8Properties.HitCells | pkg/cpu.go:213-223 | a cell is toggled iff it is `x + col + (y + row) * 64` for a drawn row below n and a column below 8 |
| Chip8Properties.HitIsCell | pkg/cpu.go:213-223 | every toggled cell has that form |
| Chip8Properties.CellIsHit | pkg/cpu.go:213-223 | every cell of that form is toggled |
| Chip8Properties.EdgeCrossing | pkg/cpu.go:213-223 | with no wrap-around, a Dxyn at Vx = 60, Vy = 0 whose row 0 is drawn hits cell 64, the first cell of the next display row, and a successful draw flips it |
| Chip8Properties.EdgeOverrun | pkg/cpu.go:213-220 | a Dxyn at Vx = 60, Vy = 31 whose row 0 is drawn reaches past the display and faults with SpriteOutOfRange |
| Chip8Properties.FlipInvolution | pkg/cpu.go:220 | the toggle `^= 1` changes every cell, is its own inverse, and gives 1 exactly from 0 |
| Chip8Properties.DrawEffect | pkg/cpu.go:204-225 | a Dxyn that does not fault changes exactly the hit cells, sets VF to 1 iff a hit cell was lit (else 0), keeps the other registers, sets the dirty flag and advances pc |
| Chip8Properties.DrawFault | pkg/cpu.go:213-220 | Dxyn faults iff a sprite row address lies outside memory or a drawn row's last cell lies outside the display |
| Chip8Properties.OnScreenSpriteFits | pkg/cpu.go:204-225 | a sprite with x + 8 <= 64, y + n <= 32 and I + n <= 4096 is drawn without a fault |
| Chip8Properties.DrawTwiceRestores | pkg/cpu.go:204-225 | drawing the same sprite twice (x, y not F) restores the display, and VF after the second draw is 1 iff a hit cell was 0 before the first |
| Chip8Properties.WaitWithoutKey | pkg/cpu.go:248-259 | with no key down, an Fx0A cycle only records the opcode: pc, registers and both timers are unchanged |
| Chip8Properties.WaitRepeats | pkg/cpu.go:248-259 | with no key down, a second cycle gives the same state as the first |
| Chip8Properties.WaitWithKey | pkg/cpu.go:248-259 | with a key down, Fx0A sets Vx to a pressed key with no pressed key above it, advances pc, and the timers tick |
| Chip8Properties.KeyEndsWait | pkg/cpu.go:248-325 | a key pressed while Fx0A waits is loaded into Vx by the next cycle, which moves pc past the Fx0A |
| Chip8Properties.ExecuteKeepsTimers | pkg/cpu.go:89-294 | instructions other than Fx15 and Fx18 leave both timers unchanged |
| Chip8Properties.CompletedCycleTicks | pkg/cpu.go:296-306 | every cycle that reaches the timer update, other than Fx15/Fx18, takes one from each nonzero timer and leaves zero timers at 0; BEEP iff the sound timer was 1 |
| Chip8Properties.SetTimer | pkg/cpu.go:260-306 | Fx15/Fx18 load the timer from Vx and the same cycle's tick leaves Vx - 1 (or 0); BEEP iff the loaded sound timer is 1 |
| Chip8Properties.IdleLoopCountsDown | pkg/cpu.go:109-110 | cycling on a 1nnn that jumps to itself keeps pc, memory, registers and display, while each timer falls by one per cycle down to 0 |
| Chip8Properties.IndexArithmetic | pkg/cpu.go:266-271 | Fx1E sets I to I + Vx mod 65536 and Fx29 sets I to 5 Vx; nothing else changes but pc |
| Chip8Properties.GlyphAddress | pkg/cpu.go:269-271 | after Fx29 on a digit below 16, with the font loaded, the five bytes at I are that digit's glyph |
| Chip8Properties.TensDigit | pkg/cpu.go:274-275 | `(b % 100) / 10` equals the tens digit `(b / 10) % 10` |
| Chip8Properties.StoreBcdDigits | pkg/cpu.go:272-276 | Fx33 succeeds iff I + 2 < 4096, writing the hundreds digit at I and the tens digit at I+1 and I+2, and changing nothing else but pc |
| Chip8Properties.StoreBcdExample | pkg/cpu.go:272-276 | for Vx = 123 the bytes stored are 1, 2, 2 |
| Chip8Properties.SlotsContiguous | pkg/cpu.go:278-285 | the uint16 addresses `uint16(k) + I` of V0..Vx all lie in memory iff I + x < 4096, and then slot k is I + k with no wrap-around |
| Chip8Properties.StoreRegistersEffect | pkg/cpu.go:277-282 | Fx55 succeeds iff I + x < 4096; it writes V0..Vx to I..I+x, keeps all other memory and sets I = x + 1 |
| Chip8Properties.StoredSlots | pkg/cpu.go:278-280 | the memory left by the Fx55 copy, cell by cell |
| Chip8Properties.LoadRegistersEffect | pkg/cpu.go:283-288 | Fx65 succeeds iff I + x < 4096; it loads V0..Vx from I..I+x, keeps V(x+1)..VF and sets I = x + 1 |
| Chip8Properties.StoreThenLoad | pkg/cpu.go:277-288 | Fx55 then Fx65 from the same I gives back the saved registers |
| Chip8Properties.InitState | pkg/cpu.go:54-82 | after Init: pc 0x200, sp, I and opcode 0, drawScreen set, memory[0..80) the font and the rest 0, display, stack and registers 0, timers and keys kept |
| Chip8Properties.LoadSizeBoundary | pkg/cpu.go:333-335 | a program of 4096 - 512 bytes loads, and one byte more fails with ProgramTooLarge |
| Chip8Properties.LoadedProgramFetched | pkg/cpu.go:55-86 | after Init and LoadROM, the first fetch reads the program's first two bytes at 0x200 |
| Chip8Properties.BootTwoInstructions | pkg/cpu.go:333-341 | Init and LoadROM of `6014 A200` put those bytes at 0x200..0x203 with pc at 0x200 |
| Chip8Properties.CycleLoadsV0 | pkg/cpu.go:133-135 | a cycle on 6014 at 0x200 sets V0 = 0x14 and pc = 0x202, keeping memory |
| Chip8Properties.CycleLoadsI | pkg/cpu.go:195-197 | a cycle on A200 at 0x202 sets I = 0x200 and pc = 0x204, keeping the registers |
| Chip8Properties.TwoInstructionProgram | pkg/cpu.go:84-341 | after Init, LoadROM of `6014 A200` and two cycles: V0 = 0x14, I = 0x200, pc = 0x204 |

## Left out

- The file read of `LoadROM` (pkg/cpu.go:328-331): the model takes the file's bytes as
  a sequence and models only the size check and the copy.
- `rand.Intn(256)` in Cxkk (pkg/cpu.go:202): the random byte is the `rnd` parameter of
  `Cycle`.
- The `fmt.Printf` diagnostics (pkg/cpu.go:107, 186, 290, 293, 303): only whether
  "Unknown opcode" and "BEEP!" are printed is modelled, as the `logged` and `beep`
  results. `Print` (pkg/cpu.go:344-346) only prints pc and is not modelled.
- The top-level default of the opcode switch (pkg/cpu.go:292-293) cannot be reached,
  since the 16 families are exhaustive.
- cmd/main.go (window, renderer, frame delay, key mapping) is not part of this model.
- Concurrency: the Go code has none, and key updates racing with `Cycle` are not
  modelled.
- Chip8Cpu.CHIP8.Cycle: requires that the cycle raises no Go panic. The panics are
  modelled only in `Chip8Spec`, as `Fault` results.
- Chip8Cpu.CHIP8.Cycle: the fields written before a panic, such as `opcode`, are not
  modelled.
- Chip8Cpu.CHIP8.Key: requires key < 16, where Go would panic on an index outside the
  keys array.
