/** The macros: each replaces one instruction by base instructions that work through
    scratch words below the stack pointer and through the tables of the section at
    address `t`. */
module RvMacros {
  import opened Basics
  import opened RvMachine
  import opened Lut

  // Offsets of the scratch words from the stack pointer.
  const SAVE1: int := -4
  const SAVE2: int := -8
  const SAVE3: int := -12
  const VAR_A: int := -16
  const VAR_B: int := -20
  const VAR_C: int := -24
  const VAR_D: int := -28

  function La(r: Reg, a: Word): (code: seq<Base>)
  {
    [Lui(r, (a + 0x800) / 0x1000 % 0x10_0000), Addi(r, r, (a + 0x800) % 0x1000 - 0x800)]
  }

  function Mv(rd: Reg, rs: Reg): Base { Addi(rd, rs, 0) }

  function GetByte(rd: Reg, rs1: Reg, b: int): (code: seq<Base>)
  {
    [Sw(rs1, SP, VAR_C), Lbu(rd, SP, VAR_C + b)]
  }

  function Repeat(i: Base, n: nat): (code: seq<Base>)
  {
    if n == 0 then [] else [i] + Repeat(i, n - 1)
  }

  function Sh(rs: Reg, base: Reg, off: int): (code: seq<Base>)
  {
    [Sb(rs, base, off)] + GetByte(TP, rs, 1) + [Sb(TP, base, off + 1)]
  }

  function Slli(rd: Reg, rs1: Reg, imm: nat): (code: seq<Base>)
    decreases imm
  {
    if imm == 0 then (if rd != rs1 then [Mv(rd, rs1)] else [])
    else if imm >= 24 then
      [Sw(X0, SP, VAR_A), Sb(rs1, SP, VAR_A + 3), Lw(rd, SP, VAR_A)] + Slli(rd, rd, imm - 24)
    else if imm >= 16 then
      [Sw(X0, SP, VAR_A)] + Sh(rs1, SP, VAR_A + 2) + [Lw(rd, SP, VAR_A)] + Slli(rd, rd, imm - 16)
    else
      [Add(rd, rs1, rs1)] + Repeat(Add(rd, rd, rd), imm - 1)
  }

  /** The most significant bit. */
  function Msb(rd: Reg, rs1: Reg): (code: seq<Base>)
  {
    GetByte(rd, rs1, 3) + Slli(rd, rd, 1) + GetByte(rd, rd, 1)
  }

  function NotByte(b: int): (code: seq<Base>)
  {
    [Lbu(GP, SP, VAR_C + b), Add(GP, GP, TP), Lbu(GP, GP, 0), Sb(GP, SP, VAR_D + b)]
  }

  function Not(t: Word, rd: Reg, rs1: Reg): (code: seq<Base>)
  {
    [Sw(GP, SP, SAVE3), Sw(rs1, SP, VAR_C)] + La(TP, Wrap(t + LUT + Xor8.Offset() + 0xff * 0x100))
    + (NotByte(3) + NotByte(2) + NotByte(1) + NotByte(0))
    + [Lw(GP, SP, SAVE3), Lw(rd, SP, VAR_D)]
  }

  function Sub(t: Word, rd: Reg, rs1: Reg, rs2: Reg): (code: seq<Base>)
  {
    Not(t, TP, rs2) + [Add(rd, rs1, TP), Addi(rd, rd, 1)]
  }

  function SltSave(rs1: Reg, rs2: Reg): (code: seq<Base>)
  {
    [Sw(S0, SP, SAVE1), Sw(S1, SP, SAVE2), Sw(rs2, SP, VAR_A), Mv(S0, rs1), Lw(S1, SP, VAR_A)]
  }

  function SltIndex(t: Word): (code: seq<Base>)
  {
    Msb(GP, S0) + Slli(GP, GP, 1)
    + (Msb(TP, S1) + [Add(GP, GP, TP)] + Slli(GP, GP, 1))
    + (Sub(t, TP, S0, S1) + Msb(TP, TP) + [Add(GP, GP, TP)])
  }

  function SltFetch(t: Word, table: nat, rd: Reg): (code: seq<Base>)
  {
    La(TP, Wrap(t + table)) + [Add(TP, TP, GP), Lw(S1, SP, SAVE2), Lw(S0, SP, SAVE1), Lbu(rd, TP, 0)]
  }

  /** Set if less than; `table` decides whether signed or unsigned. */
  function SltTemplate(t: Word, table: nat, rd: Reg, rs1: Reg, rs2: Reg): (code: seq<Base>)
  {
    SltSave(rs1, rs2) + SltIndex(t) + SltFetch(t, table, rd)
  }

  function LogicByte(lut: Reg, b: int): (code: seq<Base>)
  {
    [Lbu(TP, SP, VAR_A + b), Sb(TP, SP, VAR_D + 1), Lbu(TP, SP, VAR_B + b), Sb(TP, SP, VAR_D)]
    + [Lw(TP, SP, VAR_D), Add(TP, lut, TP), Lbu(TP, TP, 0), Sb(TP, SP, VAR_C + b)]
  }

  function Logic(t: Word, table: Table, rd: Reg, rs1: Reg, rs2: Reg): (code: seq<Base>)
  {
    if rd == X0 then []
    else
      [Sw(rs1, SP, VAR_A), Sw(rs2, SP, VAR_B)] + La(rd, Wrap(t + LUT + table.Offset())) + [Sw(X0, SP, VAR_D)]
      + (LogicByte(rd, 3) + LogicByte(rd, 2) + LogicByte(rd, 1) + LogicByte(rd, 0))
      + [Lw(rd, SP, VAR_C)]
  }

  /** Leaves 0 in `rd` if bytes `b` of the two operands are the same, 1 if not: a 1 is
      written at the first byte's place in the array, then a 0 at the second's. */
  function CheckSame(seen: Reg, rd: Reg, b: int): (code: seq<Base>)
  {
    [Lbu(rd, SP, VAR_A + b), Add(TP, seen, rd), Addi(rd, X0, 1), Sb(rd, TP, 0)]
    + [Lbu(rd, SP, VAR_B + b), Add(rd, seen, rd), Sb(X0, rd, 0), Lbu(rd, TP, 0)]
  }

  /** Counts the differing bytes in gp. */
  function SeqCount(): (code: seq<Base>)
  {
    CheckSame(S0, GP, 0)
    + (CheckSame(S0, S1, 1) + [Add(GP, GP, S1)])
    + (CheckSame(S0, S1, 2) + [Add(GP, GP, S1)])
    + (CheckSame(S0, S1, 3) + [Add(GP, GP, S1)])
  }

  function SeqSave(t: Word, rs1: Reg, rs2: Reg): (code: seq<Base>)
  {
    [Sw(rs1, SP, VAR_A), Sw(rs2, SP, VAR_B), Sw(S0, SP, SAVE1), Sw(S1, SP, SAVE2)]
    + La(S0, Wrap(t + Lut.CHECK_SAME))
  }

  function SeqFetch(t: Word, rd: Reg): (code: seq<Base>)
  {
    La(TP, Wrap(t + SAME_RESULT)) + [Add(TP, TP, GP)] + [Lbu(rd, TP, 0), Lw(S1, SP, SAVE2), Lw(S0, SP, SAVE1)]
  }

  /** Set if equal. */
  function Seq(t: Word, rd: Reg, rs1: Reg, rs2: Reg): (code: seq<Base>)
  {
    SeqSave(t, rs1, rs2) + SeqCount() + SeqFetch(t, rd)
  }

  function CheckZero(table: Reg, rd: Reg, b: int): (code: seq<Base>)
  {
    [Lbu(rd, SP, VAR_A + b), Add(rd, table, rd), Lbu(rd, rd, 0)]
  }

  /** Counts the nonzero bytes in gp. */
  function SeqzCount(): (code: seq<Base>)
  {
    CheckZero(S0, GP, 0)
    + (CheckZero(S0, TP, 1) + [Add(GP, GP, TP)])
    + (CheckZero(S0, TP, 2) + [Add(GP, GP, TP)])
    + (CheckZero(S0, TP, 3) + [Add(GP, GP, TP)])
  }

  function SeqzFetch(t: Word, rd: Reg): (code: seq<Base>)
  {
    La(TP, Wrap(t + SAME_RESULT)) + [Add(TP, TP, GP), Lbu(rd, TP, 0), Lw(S0, SP, SAVE1)]
  }

  /** Set if zero. */
  function Seqz(t: Word, rd: Reg, rs1: Reg): (code: seq<Base>)
  {
    [Sw(rs1, SP, VAR_A), Sw(S0, SP, SAVE1)] + La(S0, Wrap(t + CHECK_ZERO)) + SeqzCount() + SeqzFetch(t, rd)
  }

  /** The low five bits of a register, by masking its low byte. */
  function GetShamt(t: Word, rd: Reg, rs1: Reg): (code: seq<Base>)
  {
    [Sb(rs1, SP, VAR_B), Lbu(rd, SP, VAR_B)] + La(TP, Wrap(t + LUT + And8.Offset() + 0x1f * 0x100))
    + [Add(rd, rd, TP), Lbu(rd, rd, 0)]
  }

  /** The word a shift table holds for byte `b` of the operand, in the row `base` points to. */
  function ShiftByte(base: Reg, b: int): (code: seq<Base>)
  {
    [Lbu(TP, SP, VAR_A + b)] + Slli(TP, TP, 2) + [Add(TP, base, TP), Lw(TP, TP, 0)]
  }

  /** Points s0 to the row of `table` for the shift amount in `rs2`. */
  function ShiftRow(t: Word, table: Table, rs2: Reg): (code: seq<Base>)
  {
    GetShamt(t, S0, rs2) + [Sw(X0, SP, VAR_B), Sb(S0, SP, VAR_B + 1), Lw(S0, SP, VAR_B)] + Slli(S0, S0, 2)
    + La(TP, Wrap(t + LUT + table.Offset())) + [Add(S0, S0, TP)]
  }

  function SllBytes(): (code: seq<Base>)
  {
    ([Sw(X0, SP, VAR_B)] + ShiftByte(S0, 3) + [Sb(TP, SP, VAR_B + 3), Lw(GP, SP, VAR_B)])
    + (ShiftByte(S0, 2) + Sh(TP, SP, VAR_B + 2) + [Lw(TP, SP, VAR_B), Add(GP, GP, TP)])
    + (ShiftByte(S0, 1) + Slli(TP, TP, 8) + [Add(GP, GP, TP)])
    + ShiftByte(S0, 0)
  }

  function RestoreAdd(rd: Reg): (code: seq<Base>)
  {
    [Lw(S0, SP, SAVE1), Add(rd, GP, TP)]
  }

  function Sll(t: Word, rd: Reg, rs1: Reg, rs2: Reg): (code: seq<Base>)
  {
    [Sw(S0, SP, SAVE1), Sw(rs1, SP, VAR_A)] + ShiftRow(t, Sll8, rs2) + (SllBytes() + RestoreAdd(rd))
  }

  /** Bytes 2 to 0 of the shifted word, gathered in gp. */
  function SrlBytes(): (code: seq<Base>)
  {
    (ShiftByte(S0, 2) + [Sw(TP, SP, VAR_B)])
    + (ShiftByte(S0, 1) + [Sw(TP, SP, VAR_C)])
    + (ShiftByte(S0, 0) + [Sw(TP, SP, VAR_D)])
    + SrlGather()
  }

  function SrlGather(): (code: seq<Base>)
  {
    [Lbu(GP, SP, VAR_B + 1), Lbu(TP, SP, VAR_C + 2), Add(GP, GP, TP), Lbu(TP, SP, VAR_D + 3), Add(GP, GP, TP)]
    + [Sw(GP, SP, VAR_D), Lbu(GP, SP, VAR_B + 2), Lbu(TP, SP, VAR_C + 3), Add(GP, GP, TP)]
    + [Sb(GP, SP, VAR_D + 1), Lbu(GP, SP, VAR_B + 3), Sb(GP, SP, VAR_D + 2), Lw(GP, SP, VAR_D)]
  }

  /** The shifted top byte and the sum; an arithmetic shift moves on to the other table. */
  function SrlTop(rd: Reg, arith: bool): (code: seq<Base>)
  {
    (if arith then La(TP, Wrap(Sra8.Offset() - Srl8.Offset())) + [Add(S0, S0, TP)] else [])
    + ShiftByte(S0, 3) + RestoreAdd(rd)
  }

  function ShiftRight(t: Word, rd: Reg, rs1: Reg, rs2: Reg, arith: bool): (code: seq<Base>)
  {
    [Sw(S0, SP, SAVE1), Sw(rs1, SP, VAR_A)] + ShiftRow(t, Srl8, rs2) + SrlBytes() + SrlTop(rd, arith)
  }

  function ShiftRightImm(t: Word, rd: Reg, rs1: Reg, imm: nat, arith: bool): (code: seq<Base>)
  {
    if imm == 24 && arith then
      [Sw(rs1, SP, VAR_A)] + La(TP, Wrap(t + LUT + Sra8.Offset() + imm * 0x400))
      + ([Lbu(rd, SP, VAR_A + 3)] + Slli(rd, rd, 2) + [Add(TP, TP, rd), Lw(rd, TP, 0)])
    else if imm == 24 then GetByte(rd, rs1, 3)
    else
      [Sw(S0, SP, SAVE1), Sw(rs1, SP, VAR_A)] + La(S0, Wrap(t + LUT + Srl8.Offset() + imm * 0x400))
      + SrlBytes() + SrlTop(rd, arith)
  }

  function Lb(t: Word, rd: Reg, base: Reg, off: int): (code: seq<Base>)
  {
    [Sw(X0, SP, VAR_A), Lbu(rd, base, off), Sb(rd, SP, VAR_A + 3), Lw(rd, SP, VAR_A)]
    + ShiftRightImm(t, rd, rd, 24, true)
  }

  function Lhu(rd: Reg, base: Reg, off: int): (code: seq<Base>)
  {
    [Sw(X0, SP, VAR_A), Lbu(TP, base, off + 1), Sb(TP, SP, VAR_A + 1), Lw(TP, SP, VAR_A)]
    + [Lbu(rd, base, off), Add(rd, rd, TP)]
  }

  function Lh(t: Word, rd: Reg, base: Reg, off: int): (code: seq<Base>)
  {
    [Sw(X0, SP, VAR_A), Lbu(GP, base, off + 1), Sb(GP, SP, VAR_A + 3), Lw(GP, SP, VAR_A)]
    + ShiftRightImm(t, GP, GP, 16, true)
    + [Lbu(rd, base, off), Add(rd, rd, GP)]
  }

  /** For the flag in tp, fetches one of two code addresses stored side by side. */
  function BranchResolve(high: Word, low: Word): (code: seq<Base>)
  {
    Slli(TP, TP, 2) + [Add(TP, SP, TP)]
    + (La(GP, high) + [Sw(GP, SP, VAR_A)])
    + (La(GP, low) + [Sw(GP, SP, VAR_B)])
    + [Lw(TP, TP, VAR_B)]
  }

  /** tp = 1 if `rs` is negative or zero, 0 if it is positive. */
  function NotPositive(t: Word, rs: Reg): (code: seq<Base>)
  {
    Msb(GP, rs) + [Addi(TP, rs, -1)] + Msb(TP, TP) + [Add(GP, GP, TP)]
    + La(TP, Wrap(t + OR1)) + [Add(TP, GP, TP), Lbu(TP, TP, 0)]
  }
}
