# Verified models of the computer-system course code

Models, with proofs, of the parts of the repository that compute something hard: a macro
compiler, 64-bit division on a 32-bit machine, and the protocols, tables and state machines of
an NES emulator and of a small multi-processor kernel.

- **rvmini** (`Lut`, `RvMachine`, `RvMacros`, `Rv*`, `Shifts`): the macros that replace RV32I
  instructions by add, addi, lui, lw, lbu, sw, sb and jalr, working through scratch words below
  sp and through byte tables. Each macro is the sequence it expands to, run by a step function
  over 32-bit registers and byte memory. `RvProgram.ExpansionRuns` is the main result: every run
  of a program is a run of its expansion. `Rv32` is the instruction set that is replaced, after
  sections 2.4 to 2.6 of the RISC-V Instruction Set Manual, Volume I (Unprivileged ISA,
  20191213).
- **int64** (`Int64`): the unsigned divider with all its special cases, its branch-free loop, the
  zero counts it rests on, and the signed wrappers.
- **Picture unit** (`PpuScroll`, `Timing`): two independent forms of the scroll registers shown
  equal over whole runs; and the dots of a frame along every branch, with the processor's cycles
  keeping up. What instructions do besides taking time is an arbitrary function of the step.
- **Sound** (`Resampler`, `Apu`): resampling in chunks is resampling at once; the sound
  registers' ranges keep the mixer's table indexes legal, and each mixed sample is given in
  closed form.
- **Boards** (`Eeprom`, `Barcode`, `Flash`, `Cart`, `Handlers`): the EEPROM from its two wires up
  to whole transfers, the barcode encoder and reader, the flash command machine, program banks,
  and the compressed handler index.
- **thread-os** (`Scheduler`): the ring scheduler on several processors and its spin lock.

`Basics` and `Bits` hold the shared types and binary digits. Where the source updates state in
place there is a class with those fields, each method proved against a function on values; the
lemmas are about those functions. `dafny verify dfyconfig.toml` checks everything.

How to read the rvmini theorem. `Program` asks that every instruction is `Legal`: tp and gp are
not used, constants fit, and the result register is not one the macro still relies on (see
below). `Disciplined` is what the program must respect at each step: room of 28 bytes below sp
apart from the section with the tables, no load of a byte that an earlier expansion may have
overwritten, no store to the tables. `dirty` is the set of those bytes: the scratch words of
every stack position used so far and the equality array, less the bytes the program has stored
since. Label addresses are the ones the assembler gives in the expanded object, for the program
and the expansion alike.

What the code does other than one would expect, kept as it is:

- `seqz` with result s0 loses the result, since s0 is restored after it is written
  (`RvLimits.SeqzExact`); with result sp, `seqz`, `sltz` and `lb` corrupt a register or memory.
- Halfword accesses need offset + 1 to fit twelve bits as well (`RvFields.HalfwordFields`), and
  bitwise macros refuse sp.
- A $2007 write while rendering always sets the two renderers' addresses apart
  (`PpuScroll.StepSynced`).
- A skipped frame always has 240 lines, so it lasts as long as a drawn one exactly when that one
  has 240 (`Timing.SkippedAsLong`): with 240 normal lines, when overclocking adds none behind the
  picture or a sample spared from it is playing. With 290 normal lines a skipped frame is shorter.
- The barcode reader moves on one bar a call, however much time the call brings: bars come out on
  time exactly when no call lets two thousand cycles gather (`Barcode.OnTime`). An instruction
  that jumps to itself brings a whole run at once, and the bars lag (`Barcode.LongCallLags`).
- The low-quality mixer takes the second pulse's volume for the first channel and the first's
  for the second, and the triangle's volume for the noise (`Apu.Sound.DutyTable`,
  `Apu.Sound.Voicing`).
- An address whose handler was never set shares slot 0 of the compressed index, where the plain
  table has none (`Handlers.Table.Get`).
- setprg4r has no branch for chips of one page: its second page always lies outside such a chip,
  its first for every bank but 0 (`Cart.FourLeaves`).
- The scheduler's first interrupt on processor 0 starts behind task 0, so its second task runs
  first; with more processors than tasks the search of the extra ones never ends
  (`Scheduler.SearchEnds`).

## Model

| member | source | states |
|---|---|---|
| Lut.GenTable | CODE/abstract-machine/tools/rvmini/gen-lut.c:10-17 | the nested loops write, entry by entry and low byte first, exactly the bytes the table is defined to hold |
| Lut.GenLut | CODE/abstract-machine/tools/rvmini/gen-lut.c:19-24 | the six tables follow one another so that every byte of the file is the byte its place stands for |
| Lut.LutEntry | CODE/abstract-machine/tools/rvmini/inst-replace.h:75-80 | the entry for row `j` and column `i` of a table is found at the table's offset in the file, byte by byte |
| Bits.DigitOf | CODE/abstract-machine/tools/rvmini/gen-lut.c:19-21 | digit by digit `and` is one where both are, `or` where at least one is, `xor` where exactly one is |
| Bits.DigitSums | CODE/abstract-machine/tools/rvmini/gen-lut.c:19-21 | or and and add up to the operands, exclusive or and twice and too, whatever the operands |
| RvEffects.LaOk | CODE/abstract-machine/tools/rvmini/inst-replace.h:603-606 | loading an address in two parts gives that address for every 32-bit address |
| RvEffects.MsbOk | CODE/abstract-machine/tools/rvmini/inst-replace.h:120-124 | `msb` leaves the sign bit and touches one scratch word |
| RvEffects.NotOk | CODE/abstract-machine/tools/rvmini/inst-replace.h:626-654 | `not` complements every operand byte through the table and restores gp |
| RvEffects.SubOk | CODE/abstract-machine/tools/rvmini/inst-replace.h:108-113 | `sub` is subtraction modulo 2^32 for all operands and aliasings that spare tp |
| RvCompare.SignTables | CODE/abstract-machine/tools/rvmini/inst-replace.h:51-65 | the two eight-entry tables, indexed by the signs of A, B and A-B, decide signed and unsigned order for all words |
| RvCompare.SltOk | CODE/abstract-machine/tools/rvmini/inst-replace.h:126-161 | `slt` and `sltu` leave the comparison of the original operands and restore s0 and s1 |
| RvLogic.LogicBytes | CODE/abstract-machine/tools/rvmini/inst-replace.h:163-198 | a bitwise operation on words is the operation on each of the four byte pairs |
| RvLogic.LogicOk | CODE/abstract-machine/tools/rvmini/inst-replace.h:163-209 | `and`, `or`, `xor` leave the bitwise result for all operands |
| Rv32.BitwiseValues | CODE/abstract-machine/tools/rvmini/inst-replace.h:163-209 | what `and`, `or` and `xor` leave: each of the 32 digits as the instruction set has it, or + and = xor + 2 * and = the sum of the operands |
| RvEqual.CheckSameOk | CODE/abstract-machine/tools/rvmini/inst-replace.h:211-222 | writing one and then zero through two bytes tells whether they are equal, whatever the array held before |
| RvEqual.SeqOk | CODE/abstract-machine/tools/rvmini/inst-replace.h:224-245 | `seq` leaves 1 exactly for equal words and restores s0 and s1 |
| RvEqual.SeqzOk | CODE/abstract-machine/tools/rvmini/inst-replace.h:247-271 | `seqz` leaves 1 exactly for zero when its result is neither s0 nor sp |
| RvLimits.SeqzExact | CODE/abstract-machine/tools/rvmini/inst-replace.h:253-271 | `seqz` is right in every state if and only if its result register is neither s0 nor sp; s0 is restored after the result is written |
| RvLimits.SltzExact | CODE/abstract-machine/tools/rvmini/inst-replace.h:664-666 | `sltz` is right in every state if and only if its result register is not sp |
| RvLimits.LbExact | CODE/abstract-machine/tools/rvmini/inst-replace.h:568-574 | `lb` is right in every state if and only if its result register is not sp |
| RvBranch.BranchResolveOk | CODE/abstract-machine/tools/rvmini/inst-replace.h:275-294 | the flag selects one of two code addresses stored side by side |
| RvBranch.NotPositiveOk | CODE/abstract-machine/tools/rvmini/inst-replace.h:327-374 | the sign bits of a value and its predecessor tell whether it is not positive |
| Shifts.NoCarry | CODE/abstract-machine/tools/rvmini/inst-replace.h:461-505 | the byte pieces of a shifted word share no digit, so adding them never carries |
| Shifts.SrlPieces | CODE/abstract-machine/tools/rvmini/gen-lut.c:23 | the four table entries of a word's bytes make up the word shifted right |
| Shifts.SraPieces | CODE/abstract-machine/tools/rvmini/gen-lut.c:24 | with the arithmetic entry of the top byte they make up the arithmetic shift |
| Shifts.SllPieces | CODE/abstract-machine/tools/rvmini/gen-lut.c:22 | the four left-shifted bytes put back in place and added are the word shifted left |
| RvShift.SllOk | CODE/abstract-machine/tools/rvmini/inst-replace.h:397-428 | `sll` shifts by the low five bits of the amount and restores s0 |
| RvShift.ShiftRightOk | CODE/abstract-machine/tools/rvmini/inst-replace.h:430-521 | `srl` and `sra` shift by the low five bits of the amount and restore s0 |
| RvAccess.SlliOk | CODE/abstract-machine/tools/rvmini/inst-replace.h:524-550 | `slli` shifts by every constant amount through its three ranges |
| RvAccess.ShiftRightImmOk | CODE/abstract-machine/tools/rvmini/inst-replace.h:552-560 | `srli` and `srai` shift by every constant amount |
| RvAccess.LbOk | CODE/abstract-machine/tools/rvmini/inst-replace.h:568-574 | `lb` loads and sign-extends the byte |
| RvAccess.LhuOk | CODE/abstract-machine/tools/rvmini/inst-replace.h:576-583 | `lhu` loads the zero-extended halfword |
| RvAccess.LhOk | CODE/abstract-machine/tools/rvmini/inst-replace.h:585-593 | `lh` loads and sign-extends the halfword |
| RvShift.ShOk | CODE/abstract-machine/tools/rvmini/inst-replace.h:595-599 | `sh` stores the two low bytes and no other byte outside the scratch words |
| RvExpand.AluOk | CODE/abstract-machine/tools/rvmini/inst-replace.h:108-521 | every register-register operation: its expansion leaves the RV32I result and keeps all other registers but tp and gp |
| RvExpand.ImmOk | CODE/abstract-machine/tools/rvmini/inst-replace.h:82-106 | every register-immediate operation likewise |
| RvExpand.UnaryOk | CODE/abstract-machine/tools/rvmini/inst-replace.h:626-684 | every one-operand pseudo-instruction likewise |
| RvExpand.StraightOk | CODE/abstract-machine/tools/rvmini/inst-replace.h:82-684 | every instruction that does not jump and its expansion have the same effect outside tp, gp, the scratch words and the equality array |
| RvFields.BodyPlain | CODE/abstract-machine/tools/rvmini/inst-replace.h:82-693 | the body of a legal instruction's expansion has no jump, and every constant in it fits its field |
| RvFields.ExpandEncodes | CODE/abstract-machine/tools/rvmini/inst-replace.h:82-693 | every constant in a legal instruction's expansion fits the field the instruction has for it |
| RvFields.HalfwordFields | CODE/abstract-machine/tools/rvmini/inst-replace.h:576-599 | the expansion of a halfword access can be encoded if and only if both its offset and the next one fit twelve bits |
| RvProgram.BranchOk | CODE/abstract-machine/tools/rvmini/inst-replace.h:297-380 | the body of a branch leaves in tp the address the RV32I branch would go to |
| RvProgram.SizeFixed | CODE/abstract-machine/tools/rvmini/inst-replace.h:82-693 | the length of an expansion depends neither on label addresses nor on where the tables are |
| RvProgram.CodeAt | CODE/abstract-machine/tools/rvmini/inst-replace.h:82-693 | in the laid-out program the code of instruction k stands at its label |
| RvProgram.StepOk | CODE/abstract-machine/tools/rvmini/inst-replace.h:82-693 | each step of a program is a number of steps of its expansion, relating registers, memory and position |
| RvProgram.ExpansionRuns | CODE/abstract-machine/tools/rvmini/inst-replace.h:82-693 | every run of a program is a run of its expansion: same label, same registers except tp and gp, same memory outside the bytes dirtied so far |
| RvProgram.StartRelated | CODE/abstract-machine/tools/rvmini/inst-replace.h:5-11 | with the tables loaded and room below sp, a program and its expansion start with every register and byte the same |
| RvProgram.EndTogether | CODE/abstract-machine/tools/rvmini/inst-replace.h:82-693 | when the program is at its end the expansion has no further step |
| Int64.Clzsi2 | CODE/abstract-machine/klib/src/int64.c:626-655 | the branch-free steps return the true number of leading zeros |
| Int64.Ctzsi2 | CODE/abstract-machine/klib/src/int64.c:661-695 | the branch-free steps return the true number of trailing zeros |
| Int64.Clzdi2 | CODE/abstract-machine/klib/src/int64.c:711-717 | the same for a double word |
| Int64.Ctzdi2 | CODE/abstract-machine/klib/src/int64.c:703-709 | the same for a double word |
| Int64.NormaliseHigh | CODE/abstract-machine/klib/src/int64.c:491-506 | the leading-zero counts give a shift of 1 to 32 that leaves less than the divisor, or tell that the divisor is the larger |
| Int64.NormaliseLow | CODE/abstract-machine/klib/src/int64.c:531-557 | for a one-word divisor the shift is from 2 to 63 and leaves less than the divisor |
| Int64.SignOfDifference | CODE/abstract-machine/klib/src/int64.c:612 | d - r - 1 fits in a signed 64-bit word for every divisor, so its sign tells whether r >= d |
| Int64.MaskedSubtract | CODE/abstract-machine/klib/src/int64.c:612-614 | the mask subtracts the divisor exactly when it goes in |
| Int64.IterationOk | CODE/abstract-machine/klib/src/int64.c:598-615 | each iteration keeps the remainder below the divisor, the doubled remainder in 64 bits, and dividend = quotient * divisor + remainder for the digits done |
| Int64.DivideLoop | CODE/abstract-machine/klib/src/int64.c:597-619 | the loop ends with quotient and remainder of the whole dividend |
| Int64.DivideByHigh | CODE/abstract-machine/klib/src/int64.c:446-507 | division when the divisor's low word is zero, through all its special cases |
| Int64.DivideByLow | CODE/abstract-machine/klib/src/int64.c:510-558 | division when the divisor's high word is zero, with its power-of-two case and its three shifts |
| Int64.DivideByBoth | CODE/abstract-machine/klib/src/int64.c:559-589 | division when neither word of the divisor is zero |
| Int64.UdivModDi4 | CODE/abstract-machine/klib/src/int64.c:412-620 | for every dividend and nonzero divisor a = q*b + rem and rem < b |
| Int64.TruncatedUnique | CODE/abstract-machine/klib/src/int64.c:353-391 | the signed specification determines quotient and remainder |
| Int64.DivDi3 | CODE/abstract-machine/klib/src/int64.c:355-365 | truncated division for all operands; the one quotient that does not fit wraps |
| Int64.ModDi3 | CODE/abstract-machine/klib/src/int64.c:379-391 | the remainder of truncated division: dividend's sign, smaller than the divisor |
| Int64.DivModDi4 | CODE/abstract-machine/klib/src/int64.c:369-375 | quotient and remainder together satisfy a = d*b + rem |
| PpuScroll.DownParts | CODE/fceux-am/src/ppu.cpp:1195-1211 | for every 32-bit address, the counters in the address one line down are the counters one line down |
| PpuScroll.AheadParts | CODE/fceux-am/src/ppu.cpp:996-1003 | for every 32-bit address, the counters in the address 1 or 32 on are the 15-bit counter that many on |
| PpuScroll.ChainedIsAhead | CODE/fceux-am/src/ppu.cpp:246-271 | five daisy-chained counters are one 15-bit counter, by 1 or by 32 |
| PpuScroll.AheadIsNotDown | CODE/fceux-am/src/ppu.cpp:237-272 | a step down never equals a step ahead |
| PpuScroll.HorizontalParts | CODE/fceux-am/src/ppu.cpp:1186-1193 | copying the horizontal part agrees in both forms, for every address |
| PpuScroll.StepSynced | CODE/fceux-am/src/ppu.cpp:848-1005 | every event keeps the packed and the split registers equal if and only if it is not a $2007 write while rendering |
| PpuScroll.RunSynced | CODE/fceux-am/src/ppu.cpp:142-272 | over every run without that access the two forms stay equal |
| PpuScroll.ResetSynced | CODE/fceux-am/src/ppu.cpp:1614-1621 | from reset likewise |
| PpuScroll.Ppu.B2000 | CODE/fceux-am/src/ppu.cpp:848-862 | the handler updates both forms in place as one step |
| PpuScroll.Ppu.B2005 | CODE/fceux-am/src/ppu.cpp:906-925 | the handler updates both forms and the toggle in place as one step |
| PpuScroll.Ppu.B2006 | CODE/fceux-am/src/ppu.cpp:928-958 | the handler updates both forms, the copies on the second write included |
| PpuScroll.Ppu.B2007 | CODE/fceux-am/src/ppu.cpp:960-1003 | a write through both forms is one step of both, the new one minding whether it renders |
| PpuScroll.Ppu.B2001 | CODE/fceux-am/src/ppu.cpp:864-872 | the mask alone changes |
| PpuScroll.Ppu.A2002 | CODE/fceux-am/src/ppu.cpp:586-606 | the next write to $2005 or $2006 is a first one |
| PpuScroll.Ppu.StartFrame | CODE/fceux-am/src/ppu.cpp:1710-1713 | while rendering the current address and the counters become the pending ones |
| PpuScroll.StepWidth | CODE/fceux-am/src/ppu.cpp:835-840 | bit 2 of the value last written to $2000 makes a $2007 access outside the picture move on by 32, else by 1, the address and the counters as one 15-bit number alike |
| PpuScroll.ShownOrStill | CODE/fceux-am/src/ppu.cpp:1186-1211 | bits 3 and 4 of $2001 decide whether the copies and steps of the picture unit take place |
| PpuScroll.ScrollIsSet | CODE/fceux-am/src/ppu.cpp:906-925 | after a read of $2002 two writes to $2005 and one to $2000 leave 8 * column + fine column, 8 * row + fine row and the name table as written |
| PpuScroll.AddressIsSet | CODE/fceux-am/src/ppu.cpp:928-958 | after a read of $2002 two writes to $2006 set the current address, high byte first and of six bits, and the counters to its parts |
| PpuScroll.Ppu.IncrementVs | CODE/fceux-am/src/ppu.cpp:201-212 | counting row and overflow bit by bit goes one line down: from row 29 to the other table, from row 31 to the same one |
| PpuScroll.Ppu.Increment2007 | CODE/fceux-am/src/ppu.cpp:237-272 | the counters clocked one by the other end as the one 15-bit counter does, or one line down while rendering; none leaves its width |
| PpuScroll.Ppu.Fixit1 | CODE/fceux-am/src/ppu.cpp:1195-1211 | the exclusive ors and additions on the packed address step the counters packed in it one line down and keep the bits above |
| PpuScroll.Ppu.A2007 | CODE/fceux-am/src/ppu.cpp:822-841 | a read through both forms is one step of both |
| PpuScroll.Ppu.Fixit2 | CODE/fceux-am/src/ppu.cpp:1186-1193 | the packed address with the horizontal part of the pending one |
| Timing.FetchTime | CODE/fceux-am/src/x6502.cpp:42-60 | no opcode takes less than two or more than eight cycles to fetch |
| Timing.FetchByMode | CODE/fceux-am/src/x6502.cpp:42-60 | every opcode takes the time its way of addressing memory has, indexed stores and read-modify-write instructions included |
| Timing.Processor.Interrupt | CODE/fceux-am/src/x6502.cpp:419-470 | which cause is served, which are cleared, when seven cycles are charged, and when further requests are masked |
| Timing.Processor.Execute | CODE/fceux-am/src/x6502.cpp:478-500 | each instruction charges its fetch and what its body adds, and the cycles stolen unless overclocked; a self-jump takes up all paid for; 48*cycles + count is kept; the whole state is the modelled one |
| Timing.Processor.UseUp | CODE/fceux-am/src/x6502.cpp:415-503 | the loop of interrupts and instructions ends, with the state the modelled run ends in, whatever the environment answers |
| Timing.Processor.Run | CODE/fceux-am/src/x6502.cpp:405-503 | 48*cycles + count = 16*dots, on PAL 15*dots; dots <= 3*cycles < dots + 3*last, on PAL 5*dots <= 16*cycles < 5*dots + 16*last, last being the latest instruction; every cycle is reported to the mapper; the state is that of the modelled run |
| Timing.Console.Blank | CODE/fceux-am/src/ppu.cpp:1272-1286 | both ways through the horizontal blank take the same dots; the mapper is told ten dots in if that is due at the start, else at the end if it is due then |
| Timing.Console.DoLine | CODE/fceux-am/src/ppu.cpp:1214-1299 | every branch of a line takes 341 dots, with the mapper told and the processor run in the modelled order |
| Timing.Console.Skip | CODE/fceux-am/src/ppu.cpp:1724-1746 | a skipped frame takes 240 lines along each of its three branches, with the mapper told at dot 256 of each line while rendering |
| Timing.Console.NextLine | CODE/fceux-am/src/ppu.cpp:1758-1767 | each line takes 341 dots, and the frame is cut exactly behind a line past the normal ones, but the last, while a spared sample plays |
| Timing.Console.Draw | CODE/fceux-am/src/ppu.cpp:1748-1773 | a drawn frame takes 341 dots a line: the normal lines if a spared sample plays at its start, all of them if samples are not spared, never fewer or more |
| Timing.Console.Overclock | CODE/fceux-am/src/ppu.cpp:1686-1692 | overclocking adds its lines to the vertical blank exactly when it is on, has some, and no spared sample plays at that point |
| Timing.Console.VerticalBlank | CODE/fceux-am/src/ppu.cpp:1669-1692 | the vertical blank takes the lines left over, and the overclocked ones unless a sample spared them; the interrupt comes twelve dots into the second line, if it is switched on then |
| Timing.Console.LastLine | CODE/fceux-am/src/ppu.cpp:1694-1721 | the line before the picture is one dot short every other frame; the mapper is told at dot 256 while rendering |
| Timing.Console.Frame | CODE/fceux-am/src/ppu.cpp:1657-1797 | a dead frame takes all its lines, a live one 341 * (lines per frame - 240 + lines drawn) - kook dots and the overclocked ones unless a sample spared them; its parts follow one another on the processor as modelled |
| Timing.SkippedAsLong | CODE/fceux-am/src/ppu.cpp:1724-1773 | a skipped frame lasts as long as a drawn one if and only if that one drew 240 lines |
| Timing.SkippedShorter | CODE/fceux-am/src/ppu.cpp:1724-1773 | with 290 normal lines a skipped frame is 50 lines shorter |
| Timing.Console.Frames | CODE/fceux-am/src/ppu.cpp:1657-1797 | over any run of skipped and drawn frames with 240 lines the dots do not depend on which were skipped |
| Timing.EveryOtherFrame | CODE/fceux-am/src/ppu.cpp:1719-1720 | in a run of n frames exactly every other live one is a dot short |
| Resampler.OutputPhase | CODE/fceux-am/src/filter.cpp:107-141 | output j is taken at the start phase plus j steps, and there is one for each such phase inside the buffer |
| Resampler.WholePhase | CODE/fceux-am/src/filter.cpp:107-141 | at a whole phase the output is the newest n samples, the newest with the first coefficient, weighted, added and divided by 2048 |
| Resampler.BetweenPhases | CODE/fceux-am/src/filter.cpp:119-137 | between two whole phases the output lies between theirs and moves on to the later one |
| Resampler.Impulse | CODE/fceux-am/src/filter.cpp:107-141 | a single sample plays the coefficients in their order |
| Resampler.PhasesFit | CODE/fceux-am/src/filter.cpp:104-153 | no phase leaves 32 bits, and the next call starts in range |
| Resampler.ChunkedIsWhole | CODE/fceux-am/src/filter.cpp:93-163 | however the stream is cut, the calls together give the outputs of one pass |
| Resampler.SexyAppend | CODE/fceux-am/src/filter.cpp:48-79 | the two accumulators carry over: filtering two parts is filtering the whole |
| Resampler.ClampMeans | CODE/fceux-am/src/filter.cpp:70-74 | what fits sixteen bits stays and the rest goes to the nearer end |
| Resampler.StreamIsWhole | CODE/fceux-am/src/filter.cpp:93-163 | resampled and filtered output does not depend on how the stream was cut |
| Resampler.Filter.Resample | CODE/fceux-am/src/filter.cpp:106-154 | the loop gives the outputs of the buffer and leaves the phase for the next call; every tap is inside the buffer |
| Resampler.Filter.SexyFilter | CODE/fceux-am/src/filter.cpp:61-78 | the loop filters in place and leaves the accumulators for the next call |
| Resampler.Filter.KeepLast | CODE/fceux-am/src/sound.cpp:1047-1048 | the caller moves the kept samples to the front and clears the rest |
| Resampler.Filter.Flush | CODE/fceux-am/src/sound.cpp:1033-1053 | one flush in place: the samples behind the kept ones, the sound of the chunk, the phase, the accumulators and the kept samples for the next |
| Resampler.Filter.Play | CODE/fceux-am/src/sound.cpp:1033-1053 | flush after flush in place puts out what the chunked stream is defined to be |
| Resampler.Filter.PlayFromStart | CODE/fceux-am/src/sound.cpp:1033-1053 | from start-up, flushing chunk by chunk in place sounds as one pass over the whole stream |
| Eeprom.PortStores | CODE/fceux-am/src/boards/bandai.cpp:74-157 | memory changes only on the write that clocks in the eighth bit in write mode, in the addressed cell, to the byte clocked in |
| Eeprom.OnlyStoresChange | CODE/fceux-am/src/boards/bandai.cpp:74-157 | over every run of port writes a cell no such write addressed keeps its value |
| Eeprom.ClockRises | CODE/fceux-am/src/boards/bandai.cpp:87-153 | a low and a high clock write make one rising edge, whatever the lines were |
| Eeprom.WriteStores | CODE/fceux-am/src/boards/bandai.cpp:80-153 | a start, the address and word bytes, the data and a stop store those bytes from the word on, for up to 256 of them, and touch no other cell; only a byte left one bit short before is finished by the start |
| Eeprom.ReadGives | CODE/fceux-am/src/boards/bandai.cpp:80-161 | a sequential read, by repeated start on the large chip, gives the cells from the word on and changes none; only a byte left one bit short before is finished by the start |
| Eeprom.RoundTrip | CODE/fceux-am/src/boards/bandai.cpp:69-161 | from any state of the chip, what a transfer wrote the next one reads back |
| Eeprom.Device.PortWrite | CODE/fceux-am/src/boards/bandai.cpp:74-157 | the handler in place makes the modelled step |
| Eeprom.Device.Clocked | CODE/fceux-am/src/boards/bandai.cpp:87-153 | the rising edge in place makes the modelled step |
| Barcode.SetsRelated | CODE/fceux-am/src/boards/bandai.cpp:316-331 | the three digit sets are complements and mirror images of one another, as in section 5.2 of the GS1 General Specifications |
| Barcode.Distinct | CODE/fceux-am/src/boards/bandai.cpp:311-331 | no two digits share a pattern within a set, nor across the odd and even sets, nor a parity row |
| Barcode.CheckDigit | CODE/fceux-am/src/boards/bandai.cpp:373-384 | the appended digit is the only one that makes the weighted sum divisible by ten |
| Barcode.OneErrorNoticed | CODE/fceux-am/src/boards/bandai.cpp:373-384 | one digit changed never leaves the sum divisible by ten |
| Barcode.SumPair | CODE/fceux-am/src/boards/bandai.cpp:373-400 | digits count once and three times by turns, in the long code once first, in the short one three times |
| Barcode.SwapNoticed | CODE/fceux-am/src/boards/bandai.cpp:373-400 | two neighbouring digits changed over are noticed unless they are five apart or equal |
| Barcode.DecodesBack | CODE/fceux-am/src/boards/bandai.cpp:350-404 | the bars of every 13- and 8-digit code read back as its digits, so no two codes share bars |
| Barcode.ImageShape | CODE/fceux-am/src/boards/bandai.cpp:346-412 | the stored image has 160 or 132 bytes, all zeros and ones before the end mark |
| Barcode.ImageDecodes | CODE/fceux-am/src/boards/bandai.cpp:346-412 | what is stored for a code decodes to its digits and the digit that makes them right |
| Barcode.Reader.Set | CODE/fceux-am/src/boards/bandai.cpp:310-420 | a text is accepted exactly when it is 7, 8, 12 or 13 digits; then the buffer holds the image and reading starts, otherwise nothing changes |
| Barcode.TickPlays | CODE/fceux-am/src/boards/bandai.cpp:422-436 | over any list of calls the bars come out inverted and in order up to the end mark; each call moves on at most one bar, when a thousand cycles have gathered |
| Barcode.OnTime | CODE/fceux-am/src/boards/bandai.cpp:422-436 | a bar has come out for each thousand cycles passed, at every point of a list of calls, if and only if no call lets two thousand cycles gather with those left over |
| Barcode.ShortCallsSteady | CODE/fceux-am/src/boards/bandai.cpp:422-436 | that holds whenever each call brings at most a thousand cycles |
| Barcode.LongCallLags | CODE/fceux-am/src/x6502.cpp:496-500 | a call of 5000 cycles, which a jump to itself can bring, moves on one bar and not five |
| Barcode.Reader.Pass | CODE/fceux-am/src/boards/bandai.cpp:422-436 | the hook in place makes that step and never leaves the buffer |
| Handlers.SetNibbleHalves | CODE/fceux-am/src/fceu.cpp:179-203 | setting one half of a byte keeps the other |
| Handlers.StoredEntry | CODE/fceux-am/src/fceu.cpp:191-203 | setting the index of one address keeps every other, the neighbour in the byte included |
| Handlers.Table.Register | CODE/fceux-am/src/fceu.cpp:159-167 | a handler gets one slot however often it is registered; refused exactly when new and no slot is free |
| Handlers.Table.Get | CODE/fceux-am/src/fceu.cpp:207-213 | the handler last set for the address, as in the plain table; an address never set shares the first slot |
| Handlers.Table.SetOne | CODE/fceux-am/src/fceu.cpp:215-223 | one address of the plain table changes |
| Handlers.Table.SetRange | CODE/fceux-am/src/fceu.cpp:225-239 | the range of the plain table changes and nothing else |
| Handlers.Table.Configure | CODE/fceux-am/src/fceu.cpp:159-270 | any sequence of settings is accepted exactly when it names no more handlers than there are slots, and then the index stands for the plain table |
| Cart.MaskedMod | CODE/fceux-am/src/cart.cpp:96-107 | masking a bank number with the mask of a power-of-two chip is the remainder by its banks, wrapped or not |
| Cart.BankIsPages | CODE/fceux-am/src/cart.cpp:156-200 | setting an 8, 16 or 32 KiB bank is setting its 2 KiB pages one by one, on both branches |
| Cart.BankReads | CODE/fceux-am/src/cart.cpp:121-200 | after setting bank V the byte read at offset o is the chip's byte (V * window + o) mod size |
| Cart.BankKeepsOthers | CODE/fceux-am/src/cart.cpp:64-78 | pages outside the window keep their mapping |
| Cart.BankInside | CODE/fceux-am/src/cart.cpp:64-200 | setting a bank of a fitting chip keeps every mapped page wholly inside its chip |
| Cart.FourOnTwo | CODE/fceux-am/src/cart.cpp:147-150 | after setprg4r on a 2 KiB chip, which has no such branch, a read gives the chip's byte exactly for bank 0 and offsets below 2 KiB, and nothing of the chip otherwise |
| Cart.FourLeaves | CODE/fceux-am/src/cart.cpp:147-150 | there the first page lies in the chip if and only if the bank is 0, and the second never does |
| Cart.PlaceInside | CODE/fceux-am/src/cart.cpp:125-129 | while every page lies in its chip, an accepted write goes to a byte of the chip |
| Cart.WriteReads | CODE/fceux-am/src/cart.cpp:121-129 | what is written to a RAM page is read back there |
| Cart.BankWrites | CODE/fceux-am/src/cart.cpp:125-200 | after setting bank V of a RAM chip a byte written at offset o is stored at (V * window + o) mod size of the chip, and nowhere else |
| Cart.OtherwiseKept | CODE/fceux-am/src/cart.cpp:125-129 | a write to a page that is not RAM changes nothing |
| Cart.ActReads | CODE/fceux-am/src/cart.cpp:121-200 | in a run, after a bank switch the bank is read at every offset, and after a write to it the byte written if it is RAM, the old one if not |
| Cart.BankOnlyRam | CODE/fceux-am/src/cart.cpp:64-78 | every writable page lies in a chip registered as RAM, and setting banks keeps that |
| Cart.RomKept | CODE/fceux-am/src/cart.cpp:125-129 | over every run of bank switches of fitting chips and writes, each write going where CartBW puts it, no byte of a chip registered as ROM changes, every page stays inside its chip and every writable page in RAM |
| Cart.Cartridge.SetPagePointer | CODE/fceux-am/src/cart.cpp:64-78 | the downward loop sets the window's pages and no others |
| Cart.Cartridge.SetProgram | CODE/fceux-am/src/cart.cpp:138-200 | the five bank functions in place make the modelled change |
| Cart.Cartridge.Read | CODE/fceux-am/src/cart.cpp:132-136 | the read handler in place gives the byte of the mapped page, if one is mapped |
| Cart.Cartridge.Write | CODE/fceux-am/src/cart.cpp:125-129 | the write handler in place stores exactly what the modelled write does and keeps every page in its chip |
| Flash.ModeMeans | CODE/fceux-am/src/boards/cheapocabra.cpp:133-207 | in any run the chip's mode tells the last writes it saw |
| Flash.OnlyCommandsChange | CODE/fceux-am/src/boards/cheapocabra.cpp:133-207 | in any run, bank switches interleaved, a byte changes only on the write completing the unlock and A0, and then only by clearing bits, or the six-step erase, and then to FF in the addressed sector or the whole chip |
| Flash.ProgramTakes | CODE/fceux-am/src/boards/cheapocabra.cpp:171-175 | a completed program command clears the byte's zero bits in the addressed cell and changes nothing else |
| Flash.EraseTakes | CODE/fceux-am/src/boards/cheapocabra.cpp:191-204 | a completed erase sets the sector or the chip to FF and keeps the rest |
| Flash.WrongStep | CODE/fceux-am/src/boards/cheapocabra.cpp:145-207 | a write that is not the next step of the command returns the chip to ready |
| Flash.ReadsWhatItWrites | CODE/fceux-am/src/boards/cheapocabra.cpp:75-119 | the cell programmed through an address is the cell the processor reads at that address |
| Flash.Board.Copy | CODE/fceux-am/src/boards/cheapocabra.cpp:260-267 | the loop fills the chip with the program ROM over and over |
| Flash.Board.Access | CODE/fceux-am/src/boards/cheapocabra.cpp:116-208 | the handler in place makes the modelled step |
| Scheduler.SearchEnds | CODE/am-kernels/kernels/thread-os/thread-os.c:49-51 | walking on around the ring from any task meets one of a processor's class if and only if the processor's number is below the number of tasks; otherwise the search never ends |
| Scheduler.ScanNext | CODE/am-kernels/kernels/thread-os/thread-os.c:49-51 | the search goes through the processor's tasks in turn |
| Scheduler.Ring.Search | CODE/am-kernels/kernels/thread-os/thread-os.c:49-51 | the loop ends at the first following task of the processor's class |
| Scheduler.Ring.Interrupt | CODE/am-kernels/kernels/thread-os/thread-os.c:45-53 | the handler in place saves the interrupted context, moves on and returns the chosen task's context |
| Scheduler.RoundRobin | CODE/am-kernels/kernels/thread-os/thread-os.c:45-53 | after k interrupts, however they interleave, a processor runs the task that is k-th in turn of its own class |
| Scheduler.EveryTaskSoon | CODE/am-kernels/kernels/thread-os/thread-os.c:45-53 | however a run goes on, once a processor has had as many further interrupts as its class has tasks, each of them has run on the way |
| Scheduler.SavedContext | CODE/am-kernels/kernels/thread-os/thread-os.c:47-48 | what is saved for a task is what the last interrupt that took it away came with |
| Scheduler.ResumesWhereLeft | CODE/am-kernels/kernels/thread-os/thread-os.c:45-53 | a resumed task gets the context it was last interrupted with, one turn ago, or its initial one |
| Scheduler.InterruptKeeps | CODE/am-kernels/kernels/thread-os/thread-os.c:45-53 | an interrupt keeps every task's own context, saved or running |
| Scheduler.LockCycle | CODE/am-kernels/kernels/thread-os/thread-os.c:22-28 | a task going for the lock waits while it is taken, gets in when it is free, and letting it go leaves everything as it was |
| Scheduler.AlwaysExclusive | CODE/am-kernels/kernels/thread-os/thread-os.c:22-34 | through every interleaving of interrupts and steps at most one task is between lock and unlock, and the lock is taken exactly when one is |
| Apu.SweepFreq | CODE/fceux-am/src/sound.cpp:403-411 | a sweep keeps the frequency within eleven bits, rising or falling, on either channel |
| Apu.SweepMoves | CODE/fceux-am/src/sound.cpp:403-411 | with a shift of at least one the frequency falls by freq / 2^shift, and one more on channel 0, when bit 3 is set, and else rises by it unless it would reach 0x800 |
| Apu.InTuneMeans | CODE/fceux-am/src/sound.cpp:170-180 | a channel is silenced exactly when its sweep rises and the next step would reach 0x800 |
| Apu.FrequencyRegisters | CODE/fceux-am/src/sound.cpp:182-224 | the two frequency registers, in either order, make up eleven bits |
| Apu.EnvelopeShape | CODE/fceux-am/src/sound.cpp:434-454 | once reloaded the volume falls by one every speed + 1 steps and stays at the bottom or starts over |
| Apu.NoiseAlive | CODE/fceux-am/src/sound.cpp:864-865 | the noise register never becomes zero and no two values step to the same one |
| Apu.FetchesInOrder | CODE/fceux-am/src/sound.cpp:493-516 | a sample is fetched from consecutive addresses, wrapping, and ends after exactly its length |
| Apu.Levelled | CODE/fceux-am/src/sound.cpp:539-550 | the sample level stays within seven bits |
| Apu.Sound.constructor | CODE/fceux-am/src/sound.cpp:1102-1184 | every register starts as the power-on code leaves it, the frame clock a quarter ahead |
| Apu.LevelMoves | CODE/fceux-am/src/sound.cpp:539-550 | a one moves the level up by two and a zero down, unless that leaves seven bits |
| Apu.Sound.WriteRegister | CODE/fceux-am/src/sound.cpp:195-280 | what each register sets; all ranges stay |
| Apu.Sound.WriteStatus | CODE/fceux-am/src/sound.cpp:323-347 | lengths of disabled channels are cleared; a sample starts unless one is running |
| Apu.Sound.FrameStuff | CODE/fceux-am/src/sound.cpp:370-455 | a frame step makes the sweep, length, envelope and linear-counter steps; a sweep that is on and due moves the frequency as above; all ranges stay |
| Apu.Sound.Sweep | CODE/fceux-am/src/sound.cpp:395-421 | the sweep of a channel in place, counter and reload included |
| Apu.Sound.Decay | CODE/fceux-am/src/sound.cpp:434-454 | one envelope in place |
| Apu.Sound.FrameUpdate | CODE/fceux-am/src/sound.cpp:457-475 | the frame interrupt, the fifth quarter of the other mode on the clock, and a quarter step of every unit, even or odd by the step counter; all ranges stay |
| Apu.Sound.WriteFrameMode | CODE/fceux-am/src/sound.cpp:989-999 | a write to the frame counter restarts it and its clock, with an even quarter step if bit 7 is set and no unit touched otherwise; all ranges stay |
| Apu.Sound.Pass | CODE/fceux-am/src/sound.cpp:518-558 | the frame clock runs down by 48 a cycle, and exactly when it is out one quarter step is taken and a quarter put back on it; the sample fetches once and plays the bits due, and that loop ends; all ranges stay |
| Apu.Sound.FetchByte | CODE/fceux-am/src/sound.cpp:493-516 | the fetch in place, with the wrap of the address and the end of the sample |
| Apu.Sound.PlayOne | CODE/fceux-am/src/sound.cpp:536-557 | one bit of the sample in place, and the next byte behind the eighth |
| Apu.TurnsAdd | CODE/fceux-am/src/sound.cpp:718-735 | running a phase down sample by sample takes as many refills as running it down at once |
| Apu.TurnsEnough | CODE/fceux-am/src/sound.cpp:718-735 | a refilled phase is positive and at most one stride |
| Apu.Sound.Duty | CODE/fceux-am/src/sound.cpp:660-693 | whether a pulse channel sounds, its level, and the share of its duty cycle it has it for |
| Apu.Sound.Setting | CODE/fceux-am/src/sound.cpp:792-826 | how triangle, noise and sample sound until the next register write |
| Apu.Sound.MixPulses | CODE/fceux-am/src/sound.cpp:640-736 | sample k is the table entry for the duty cycles k samples on, the index is below 32, and the refill loops end |
| Apu.MixIndex | CODE/fceux-am/src/sound.cpp:832 | the index into the table of 203 levels is inside it |
| Apu.MixtureMoves | CODE/fceux-am/src/sound.cpp:834-921 | one sample more is one more running down of triangle and noise |
| Apu.Sound.MixRest | CODE/fceux-am/src/sound.cpp:780-921 | sample k is the table entry for triangle, noise and sample level k samples on, the index is below 203, and the refill loops end |

## Left out

- rvmini: auipc, fences and system instructions, traps on misaligned accesses, and the
  assembler's own work (label mangling, symbol comparison); the expansion it selects is modelled.
  Code and data memory are separate, so code that reads or writes itself is not covered.
- `RvLimits.LbExact`: quantifies over base registers and offsets together, so it does not say for
  which of them alone a result in sp would do.
- `RvEqual.SeqzOk`, `RvAccess.LbOk`, `RvEffects.MsbOk`: hold for the result registers that the
  `RvLimits` lemmas show to be the only good ones.
- Int64: division by zero, and the null pointer callers may pass for an unwanted remainder.
- PpuScroll: NMI side effects, the emphasis-bit swap of $2001, $2003, $2004 and $4014, palette and
  pattern memory, and the dot at which each renderer makes its copies; both make them together here.
- Timing: 32-bit overflow of the processor's counter and the timestamp, the sound timestamp, NSF
  files (which stop at an assertion), the newer renderer's own frame loop, drawing, and what the
  interrupt entry reads and pushes.
- Resampler: the filter coefficients are arbitrary, 32-bit overflow of the tap sums, the optional
  second low-pass filter, external sound, and the filter's form with separate input and output
  buffers, which also clears its input.
- Apu: the high-quality packed mixer and its time shift, the duty bits swapped for some clones, save
  states, and the calls of the mixer inside register writes; mixing may come between any two operations here.
- Eeprom: the board registers around the two wires.
- Barcode: the interrupt counter called beside the reader.
- Flash: the read handler of the identification mode beyond its flag, video memory and lights.
- Cart: character banks, and chips registered anew while mapped. Chip memories do not overlap.
- `Cart.BankReads`, `Cart.RomKept`: for chips of a power of two of bytes, at least one page, and
  two for setprg4r, so that every page lies in its chip; `Cart.FourOnTwo` and `Cart.FourLeaves`
  settle the case between, and what a write outside a chip would hit is not modelled.
- Handlers: the write table, which is the read table once more with another idle handler.
- Scheduler: liveness of a task that waits for the lock, and what a task prints.
- Other mapper boards, ROM loading, drawing, input, string and printing stubs, games and
  benchmarks: tables of registers, input and output, or code that only adds easy members.
