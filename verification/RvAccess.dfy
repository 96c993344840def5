/** Shifts by a constant, loads and stores narrower than a word, and the choice of a
    branch target. */
module RvAccess {
  import opened Basics
  import opened RvMachine
  import opened Lut
  import opened RvMacros
  import opened RvEffects
  import opened RvCompare
  import opened RvShift
  import Shifts
  import Bits

  lemma SllAdd(x: Word, m: nat, n: nat)
    ensures Shifts.Sll(Shifts.Sll(x, m), n) == Shifts.Sll(x, m + n)
  {
    hide Bits.Pow2;
    var p, q := Bits.Pow2(m), Bits.Pow2(n);
    Bits.Pow2Add(m, n);
    var k := x * p / WORDS;
    assert x * p == WORDS * k + x * p % WORDS;
    MulSub(x * p, WORDS * k, q);
    MulAssoc(x, p, q);
    MulAssoc(WORDS, k, q);
    Shifts.WrapTimes(x * (p * q), k * q);
  }

  lemma MulSub(a: int, b: int, c: int)
    ensures (a - b) * c == a * c - b * c
  {
  }

  lemma MulAssoc(a: int, b: int, c: int)
    ensures a * b * c == a * (b * c)
  {
  }

  /** The low byte of a register loaded as the top byte of a word. */
  lemma UpThreeOk(rd: Reg, rs1: Reg, s: State)
    requires 28 <= s.Sp()
    ensures var s' := Run([Sw(X0, SP, VAR_A), Sb(rs1, SP, VAR_A + 3), Lw(rd, SP, VAR_A)], s);
      && s'.regs == SetReg(s.regs, rd, Shifts.Sll(s.Get(rs1), 24))
      && Same(s.mem, s'.mem, s.Sp() - 16, s.Sp() - 12)
  {
    hide Wrap, Run, Same, StoreWord, StoreByte, LoadWord, Shifts.Sll;
    Run3(Sw(X0, SP, VAR_A), Sb(rs1, SP, VAR_A + 3), Lw(rd, SP, VAR_A), s);
    ByteOnTop(s.mem, s.Sp() - 16, s.Get(rs1));
  }

  lemma ByteOnTop(m: Mem, a: Word, x: Word)
    requires a < WORDS - 3
    ensures var m' := StoreByte(StoreWord(m, a, 0), a + 3, x);
      LoadWord(m', a) == Shifts.Sll(x, 24) && Same(m, m', a, a + 4)
  {
    hide ByteOf, At, StoreWord, StoreByte, Shifts.Sll, Pack;
    StoreHolds(m, a, 0);
    ZeroBytes();
    StoreByteAt(StoreWord(m, a, 0), a + 3, x);
    UpThree(x);
  }

  lemma UpThree(x: Word)
    ensures Pack(0, 0, 0, ByteOf(x, 0)) == Shifts.Sll(x, 24)
  {
    hide Bits.Pow2;
    Bits.Pow2Values();
    Shifts.WrapTimes(x * 0x100_0000, x / 0x100);
  }

  predicate Cleared(m: Mem, a: int)
    requires 0 <= a < WORDS - 3
  {
    At(m, a) == 0 && At(m, a + 1) == 0 && At(m, a + 2) == 0 && At(m, a + 3) == 0
  }

  lemma ClearAOk(s: State)
    requires 28 <= s.Sp()
    ensures var s' := Run([Sw(X0, SP, VAR_A)], s);
      && s'.regs == s.regs && Cleared(s'.mem, s.Sp() - 16)
      && Same(s.mem, s'.mem, s.Sp() - 16, s.Sp() - 12)
  {
    hide Wrap, Run, ByteOf, At, StoreWord;
    Run1(Sw(X0, SP, VAR_A), s);
    StoreHolds(s.mem, s.Sp() - 16, 0);
    ZeroBytes();
  }

  /** The low half of a register loaded as the high half of a word. */
  lemma UpTwoOk(rd: Reg, rs1: Reg, s: State)
    requires 28 <= s.Sp()
    ensures var s' := Run([Sw(X0, SP, VAR_A)] + Sh(rs1, SP, VAR_A + 2) + [Lw(rd, SP, VAR_A)], s);
      && (rd != X0 ==> s'.Get(rd) == Shifts.Sll(s.Get(rs1), 16))
      && Keeps(s.regs, s'.regs, {rd, TP})
      && Same(s.mem, s'.mem, s.Sp() - 24, s.Sp() - 12)
  {
    hide Wrap, Run, ByteOf, At, Shifts.Sll, Sh, Exec, Pack;
    RunAppend([Sw(X0, SP, VAR_A)] + Sh(rs1, SP, VAR_A + 2), [Lw(rd, SP, VAR_A)], s);
    RunAppend([Sw(X0, SP, VAR_A)], Sh(rs1, SP, VAR_A + 2), s);
    ClearAOk(s);
    var s1 := Run([Sw(X0, SP, VAR_A)], s);
    ShOk(rs1, SP, VAR_A + 2, s1);
    var s2 := Run(Sh(rs1, SP, VAR_A + 2), s1);
    LoadAOk(rd, s2);
    UpTwo(s.Get(rs1));
  }

  lemma LoadAOk(rd: Reg, s: State)
    requires 28 <= s.Sp()
    ensures Run([Lw(rd, SP, VAR_A)], s) == s.Set(rd, LoadWord(s.mem, s.Sp() - 16))
  {
    hide Wrap, Run, LoadWord;
    Run1(Lw(rd, SP, VAR_A), s);
  }

  lemma UpTwo(x: Word)
    ensures Pack(0, 0, ByteOf(x, 0), ByteOf(x, 1)) == Shifts.Sll(x, 16)
  {
    hide Bits.Pow2, Pack, ByteOf;
    Bits.Pow2Values();
    LowHalf(x);
    Shifts.WrapTimes(x * 0x1_0000, x / 0x1_0000);
  }

  lemma SlliOk(t: Word, rd: Reg, rs1: Reg, imm: nat, s: State)
    requires 28 <= s.Sp() && imm < 32
    ensures Does(s, Run(Slli(rd, rs1, imm), s), t, rd, Shifts.Sll(s.Get(rs1), imm))
  {
    hide Wrap, Run, At, Shifts.Sll, Sh;
    if imm == 0 {
      SllZero(s.Get(rs1));
      if rd != rs1 {
        Run1(Mv(rd, rs1), s);
      } else {
        RunNone(s);
      }
    } else if imm >= 24 {
      var p := [Sw(X0, SP, VAR_A), Sb(rs1, SP, VAR_A + 3), Lw(rd, SP, VAR_A)];
      RunAppend(p, Slli(rd, rd, imm - 24), s);
      UpThreeOk(rd, rs1, s);
      SlliRest(rd, imm - 24, Run(p, s));
      SllAdd(s.Get(rs1), 24, imm - 24);
    } else if imm >= 16 {
      var p := [Sw(X0, SP, VAR_A)] + Sh(rs1, SP, VAR_A + 2) + [Lw(rd, SP, VAR_A)];
      RunAppend(p, Slli(rd, rd, imm - 16), s);
      UpTwoOk(rd, rs1, s);
      SlliRest(rd, imm - 16, Run(p, s));
      SllAdd(s.Get(rs1), 16, imm - 16);
    } else {
      SlliSmall(rd, rs1, imm, s);
    }
  }

  lemma RunNone(s: State)
    ensures Run([], s) == s
  {
  }

  lemma SlliRest(rd: Reg, n: nat, s: State)
    requires n < 8
    ensures Run(Slli(rd, rd, n), s) == s.Set(rd, Shifts.Sll(s.Get(rd), n))
  {
    hide Run, Shifts.Sll;
    if n == 0 {
      RunNone(s);
      SllZero(s.Get(rd));
    } else {
      SlliSmall(rd, rd, n, s);
    }
  }

  lemma TopByteOnly(x: Word)
    ensures ByteOf(x, 3) == Shifts.Srl(x, 24)
  {
    hide Bits.Pow2;
    Bits.Pow2Values();
  }

  lemma ShiftRightImmOk(t: Word, rd: Reg, rs1: Reg, imm: nat, arith: bool, s: State)
    requires Ready(s, t) && imm < 32 && rd != TP
    ensures Does(s, Run(ShiftRightImm(t, rd, rs1, imm, arith), s), t, rd, ShiftedRight(s.Get(rs1), imm, arith))
  {
    hide Wrap, Run, Tables, Does, Shifts.Sra, Shifts.Srl, ShiftRightImm;
    if imm == 24 && arith {
      Sra24Ok(t, rd, rs1, s);
    } else if imm == 24 {
      Srl24Ok(t, rd, rs1, s);
    } else {
      ShiftByTableOk(t, rd, rs1, imm, arith, s);
    }
  }

  lemma Srl24Ok(t: Word, rd: Reg, rs1: Reg, s: State)
    requires Ready(s, t)
    ensures Does(s, Run(ShiftRightImm(t, rd, rs1, 24, false), s), t, rd, Shifts.Srl(s.Get(rs1), 24))
  {
    hide Wrap, Run, ByteOf, At, Tables, Shifts.Srl, GetByte;
    GetByteOk(rd, rs1, 3, s);
    TopByteOnly(s.Get(rs1));
  }

  lemma ShiftByTable(t: Word, rd: Reg, rs1: Reg, imm: nat, arith: bool)
    requires t + SECTION <= WORDS && imm < 32 && imm != 24
    ensures ShiftRightImm(t, rd, rs1, imm, arith)
         == [Sw(S0, SP, SAVE1), Sw(rs1, SP, VAR_A)] + La(S0, t + LUT + Srl8.Offset() + imm * 0x400)
            + (SrlBytes() + SrlTop(rd, arith))
  {
    hide Wrap, SrlBytes, SrlTop, La;
  }

  lemma ShiftByTableOk(t: Word, rd: Reg, rs1: Reg, imm: nat, arith: bool, s: State)
    requires Ready(s, t) && imm < 32 && imm != 24
    ensures Does(s, Run(ShiftRightImm(t, rd, rs1, imm, arith), s), t, rd, ShiftedRight(s.Get(rs1), imm, arith))
  {
    hide Wrap, Run, ByteOf, At, Tables, Same, Clean, ShiftedRight, ShiftRightImm, SrlBytes, SrlTop, La;
    var a := t + LUT + Srl8.Offset() + imm * 0x400;
    var p1 := [Sw(S0, SP, SAVE1), Sw(rs1, SP, VAR_A)];
    ShiftByTable(t, rd, rs1, imm, arith);
    RunAppend(p1 + La(S0, a), SrlBytes() + SrlTop(rd, arith), s);
    RunAppend(p1, La(S0, a), s);
    ShiftSaveOk(t, rs1, s);
    var s1 := Run(p1, s);
    LaOk(S0, a, s1);
    var s2 := Run(La(S0, a), s1);
    SameClean(s.mem, s2.mem, s.Sp() - 28, s.Sp(), s.Sp(), t);
    StillReady(s, s2, t);
    ShiftRightTail(t, rd, imm, s.Get(rs1), s.Get(S0), arith, s2);
    var s3 := Run(SrlBytes() + SrlTop(rd, arith), s2);
    SameClean(s2.mem, s3.mem, s.Sp() - 28, s.Sp() - 16, s.Sp(), t);
    CleanTwice(s.mem, s2.mem, s3.mem, s.Sp(), t);
  }

  /** A byte, and a halfword, with the sign bit copied upwards. */
  function SignExtend8(b: Byte): Word
  {
    if b < 0x80 then b else WORDS - 0x100 + b
  }

  function SignExtend16(h: int): Word
    requires 0 <= h < 0x1_0000
  {
    if h < 0x8000 then h else WORDS - 0x1_0000 + h
  }

  lemma SraOfTop(b: Byte)
    ensures Shifts.Sra(0x100_0000 * b, 24) == SignExtend8(b)
    ensures Shifts.Sra(0x100_0000 * b, 16) == (if b < 0x80 then 0x100 * b else WORDS - 0x1_0000 + 0x100 * b)
  {
    hide Bits.Pow2;
    Bits.Pow2Values();
  }

  predicate ClearOfScratch(a: int, sp: int)
  {
    !(sp - 28 <= a < sp)
  }

  /** Clears a scratch word and fetches a byte from elsewhere. */
  lemma ClearFetchOk(r: Reg, base: Reg, off: int, s: State)
    requires 28 <= s.Sp() && ClearOfScratch(Wrap(s.Get(base) + off), s.Sp())
    ensures var s' := Run([Sw(X0, SP, VAR_A), Lbu(r, base, off)], s);
      && s'.regs == SetReg(s.regs, r, At(s.mem, Wrap(s.Get(base) + off)))
      && Cleared(s'.mem, s.Sp() - 16)
      && Same(s.mem, s'.mem, s.Sp() - 16, s.Sp() - 12)
  {
    hide Wrap, Run, At, Cleared;
    assert [Sw(X0, SP, VAR_A), Lbu(r, base, off)] == [Sw(X0, SP, VAR_A)] + [Lbu(r, base, off)];
    RunAppend([Sw(X0, SP, VAR_A)], [Lbu(r, base, off)], s);
    ClearAOk(s);
    Run1(Lbu(r, base, off), Run([Sw(X0, SP, VAR_A)], s));
  }

  function PlacedAt(b: int, k: int): Word
    requires 0 <= b < 0x100
  {
    if k == 1 then 0x100 * b else 0x100_0000 * b
  }

  /** Places a byte in a cleared word and reads the word. */
  lemma PlaceByteOk(r: Reg, k: int, s: State)
    requires 28 <= s.Sp() && r != SP && k in {1, 3} && s.Get(r) < 0x100 && Cleared(s.mem, s.Sp() - 16)
    ensures var s' := Run([Sb(r, SP, VAR_A + k), Lw(r, SP, VAR_A)], s);
      && s'.regs == SetReg(s.regs, r, PlacedAt(s.Get(r), k))
      && Same(s.mem, s'.mem, s.Sp() - 16, s.Sp() - 12)
  {
    hide Wrap, Run, ByteOf, At, StoreByte, LoadWord;
    Run2(Sb(r, SP, VAR_A + k), Lw(r, SP, VAR_A), s);
    PlacedWord(s.mem, s.Sp() - 16, k, s.Get(r));
    StoreByteAt(s.mem, s.Sp() - 16 + k, s.Get(r));
  }

  lemma PlacedWord(m: Mem, a: int, k: int, b: int)
    requires 0 <= a < WORDS - 3 && Cleared(m, a) && k in {1, 3} && 0 <= b < 0x100
    ensures LoadWord(StoreByte(m, a + k, b), a) == PlacedAt(b, k)
  {
    hide ByteOf, At, StoreByte, Wrap;
    StoreByteAt(m, a + k, b);
    LowByte(b);
  }

  lemma FetchByteOk(r: Reg, base: Reg, off: int, k: int, s: State)
    requires 28 <= s.Sp() && r != SP && k in {1, 3}
    requires ClearOfScratch(Wrap(s.Get(base) + off), s.Sp())
    ensures var b: int := At(s.mem, Wrap(s.Get(base) + off));
      var s' := Run([Sw(X0, SP, VAR_A), Lbu(r, base, off), Sb(r, SP, VAR_A + k), Lw(r, SP, VAR_A)], s);
      && s'.regs == SetReg(s.regs, r, PlacedAt(b, k))
      && Same(s.mem, s'.mem, s.Sp() - 16, s.Sp() - 12)
  {
    hide Wrap, Run, At, Cleared;
    var p1, p2 := [Sw(X0, SP, VAR_A), Lbu(r, base, off)], [Sb(r, SP, VAR_A + k), Lw(r, SP, VAR_A)];
    assert [Sw(X0, SP, VAR_A), Lbu(r, base, off), Sb(r, SP, VAR_A + k), Lw(r, SP, VAR_A)] == p1 + p2;
    RunAppend(p1, p2, s);
    ClearFetchOk(r, base, off, s);
    PlaceByteOk(r, k, Run(p1, s));
  }

  lemma LbOk(t: Word, rd: Reg, base: Reg, off: int, s: State)
    requires Ready(s, t) && rd !in {SP, TP} && ClearOfScratch(Wrap(s.Get(base) + off), s.Sp())
    ensures Does(s, Run(Lb(t, rd, base, off), s), t, rd, SignExtend8(At(s.mem, Wrap(s.Get(base) + off))))
  {
    hide Wrap, Run, At, Tables, ShiftRightImm, SignExtend8;
    var p := [Sw(X0, SP, VAR_A), Lbu(rd, base, off), Sb(rd, SP, VAR_A + 3), Lw(rd, SP, VAR_A)];
    RunAppend(p, ShiftRightImm(t, rd, rd, 24, true), s);
    FetchByteOk(rd, base, off, 3, s);
    var s1 := Run(p, s);
    StillReady(s, s1, t);
    ShiftRightImmOk(t, rd, rd, 24, true, s1);
    SraOfTop(At(s.mem, Wrap(s.Get(base) + off)));
  }

  lemma AddByteOk(rd: Reg, base: Reg, off: int, r: Reg, s: State)
    requires rd != r
    ensures Run([Lbu(rd, base, off), Add(rd, rd, r)], s).mem == s.mem
    ensures Run([Lbu(rd, base, off), Add(rd, rd, r)], s).regs
         == SetReg(s.regs, rd, Wrap(At(s.mem, Wrap(s.Get(base) + off)) + s.Get(r)))
  {
    hide Wrap, Run, At;
    Run2(Lbu(rd, base, off), Add(rd, rd, r), s);
  }

  /** The halfword at two addresses, low byte first. */
  function HalfAt(m: Mem, a0: Word, a1: Word): (h: int)
    ensures 0 <= h < 0x1_0000
  {
    At(m, a0) + 0x100 * At(m, a1)
  }

  lemma LhuOk(t: Word, rd: Reg, base: Reg, off: int, s: State)
    requires Ready(s, t) && rd != TP && base != TP
    requires ClearOfScratch(Wrap(s.Get(base) + off), s.Sp()) && ClearOfScratch(Wrap(s.Get(base) + off + 1), s.Sp())
    ensures Does(s, Run(Lhu(rd, base, off), s), t, rd,
                 HalfAt(s.mem, Wrap(s.Get(base) + off), Wrap(s.Get(base) + off + 1)))
  {
    hide Wrap, Run, At, Tables;
    var p := [Sw(X0, SP, VAR_A), Lbu(TP, base, off + 1), Sb(TP, SP, VAR_A + 1), Lw(TP, SP, VAR_A)];
    RunAppend(p, [Lbu(rd, base, off), Add(rd, rd, TP)], s);
    FetchByteOk(TP, base, off + 1, 1, s);
    AddByteOk(rd, base, off, TP, Run(p, s));
  }

  lemma HalfSum(b0: Byte, b1: Byte)
    ensures Wrap(b0 + Shifts.Sra(0x100_0000 * b1, 16)) == SignExtend16(b0 + 0x100 * b1)
  {
    hide Shifts.Sra;
    SraOfTop(b1);
  }

  lemma CleanByte(m: Mem, m': Mem, a: Word, sp: int, t: Word)
    requires Clean(m, m', sp, t) && ClearOfScratch(a, sp) && OutsideArray(a, t)
    ensures At(m', a) == At(m, a)
  {
    hide At;
  }

  lemma LhOk(t: Word, rd: Reg, base: Reg, off: int, s: State)
    requires Ready(s, t) && rd !in {GP, TP} && base !in {GP, TP}
    requires ClearOfScratch(Wrap(s.Get(base) + off), s.Sp()) && ClearOfScratch(Wrap(s.Get(base) + off + 1), s.Sp())
    requires OutsideArray(Wrap(s.Get(base) + off), t)
    ensures Does(s, Run(Lh(t, rd, base, off), s), t, rd,
                 SignExtend16(HalfAt(s.mem, Wrap(s.Get(base) + off), Wrap(s.Get(base) + off + 1))))
  {
    hide Wrap, Run, At, Tables, Exec, Same, Clean, ClearOfScratch, OutsideArray, ShiftRightImm, SignExtend16, Shifts.Sra;
    var p1 := [Sw(X0, SP, VAR_A), Lbu(GP, base, off + 1), Sb(GP, SP, VAR_A + 3), Lw(GP, SP, VAR_A)];
    var p2, p3 := ShiftRightImm(t, GP, GP, 16, true), [Lbu(rd, base, off), Add(rd, rd, GP)];
    RunAppend(p1 + p2, p3, s);
    RunAppend(p1, p2, s);
    FetchByteOk(GP, base, off + 1, 3, s);
    var s1 := Run(p1, s);
    SameClean(s.mem, s1.mem, s.Sp() - 16, s.Sp() - 12, s.Sp(), t);
    StillReady(s, s1, t);
    ShiftRightImmOk(t, GP, GP, 16, true, s1);
    var s2 := Run(p2, s1);
    CleanTwice(s.mem, s1.mem, s2.mem, s.Sp(), t);
    CleanByte(s.mem, s2.mem, Wrap(s.Get(base) + off), s.Sp(), t);
    AddByteOk(rd, base, off, GP, s2);
    HalfSum(At(s.mem, Wrap(s.Get(base) + off)), At(s.mem, Wrap(s.Get(base) + off + 1)));
  }

  predicate OutsideArray(a: int, t: int)
  {
    !(t <= a < t + SAME_RESULT)
  }
}
