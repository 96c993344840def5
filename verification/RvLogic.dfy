/** The and, or and xor macros: four look-ups, one for each pair of bytes. */
module RvLogic {
  import opened Basics
  import opened Bits
  import opened RvMachine
  import opened Lut
  import opened RvMacros
  import opened RvEffects
  import opened RvCompare
  import opened Shifts

  function OpOf(table: Table): Op
    requires table in {And8, Or8, Xor8}
  {
    if table == And8 then And else if table == Or8 then Or else Xor
  }

  /** The operation on all 32 digits of two words. */
  function Bitwise(op: Op, a: Word, b: Word): Word
  {
    Pow2Values();
    BitOp(op, 32, a, b)
  }

  function ByteOp(op: Op, x: Byte, y: Byte): Byte
  {
    Pow2Eight();
    BitOp(op, 8, x, y)
  }

  lemma LogicEntry(table: Table, x: Byte, y: Byte)
    requires table in {And8, Or8, Xor8}
    ensures SectionByte(LUT + table.Offset() + 0x100 * x + y) == ByteOp(OpOf(table), x, y)
  {
    hide LutByte, BitOp;
    LutEntry(table, x, y, 0);
    LowByte(ByteOp(OpOf(table), x, y));
  }

  lemma WordFromPair(lo: Byte, hi: Byte)
    ensures Pack(lo, hi, 0, 0) == 0x100 * hi + lo
  {
  }

  lemma PairLoads(m: Mem, a: Word, lo: Byte, hi: Byte)
    requires a < WORDS - 3 && At(m, a) == lo && At(m, a + 1) == hi && At(m, a + 2) == 0 && At(m, a + 3) == 0
    ensures LoadWord(m, a) == 0x100 * hi + lo
  {
    hide At, Pack;
    WordFromPair(lo, hi);
  }

  lemma PairOk(b: int, s: State)
    requires 28 <= s.Sp() && 0 <= b < 4
    requires At(s.mem, s.Sp() - 26) == 0 && At(s.mem, s.Sp() - 25) == 0
    ensures var x, y := At(s.mem, s.Sp() - 16 + b), At(s.mem, s.Sp() - 20 + b);
      var s' := Run([Lbu(TP, SP, VAR_A + b), Sb(TP, SP, VAR_D + 1), Lbu(TP, SP, VAR_B + b), Sb(TP, SP, VAR_D)], s);
      && Keeps(s.regs, s'.regs, {TP})
      && Same(s.mem, s'.mem, s.Sp() - 28, s.Sp() - 26)
      && LoadWord(s'.mem, s.Sp() - 28) == 0x100 * x + y
  {
    hide Wrap, Run, ByteOf, At, StoreByte, LoadWord;
    var sp, x: int, y: int := s.Sp(), At(s.mem, s.Sp() - 16 + b), At(s.mem, s.Sp() - 20 + b);
    Run4(Lbu(TP, SP, VAR_A + b), Sb(TP, SP, VAR_D + 1), Lbu(TP, SP, VAR_B + b), Sb(TP, SP, VAR_D), s);
    LowByte(x);
    LowByte(y);
    var m1 := StoreByte(s.mem, sp - 27, x);
    StoreByteAt(s.mem, sp - 27, x);
    StoreByteAt(m1, sp - 28, y);
    PairLoads(StoreByte(m1, sp - 28, y), sp - 28, y, x);
  }

  lemma LogicByteOk(t: Word, table: Table, lut: Reg, b: int, s: State)
    requires Ready(s, t) && table in {And8, Or8, Xor8} && 0 <= b < 4
    requires lut !in {X0, SP, TP} && s.Get(lut) == t + LUT + table.Offset()
    requires At(s.mem, s.Sp() - 26) == 0 && At(s.mem, s.Sp() - 25) == 0
    ensures var s' := Run(LogicByte(lut, b), s);
      && Ready(s', t)
      && Keeps(s.regs, s'.regs, {TP})
      && At(s'.mem, s.Sp() - 24 + b) == ByteOp(OpOf(table), At(s.mem, s.Sp() - 16 + b), At(s.mem, s.Sp() - 20 + b))
      && forall a: Word :: !(s.Sp() - 28 <= a < s.Sp() - 26) && a != s.Sp() - 24 + b ==> At(s'.mem, a) == At(s.mem, a)
  {
    hide Wrap, Run, ByteOf, Tables, SectionByte, ByteOp, OpOf, Table.Offset, At, LoadWord, Exec, StoreByte, LutByte;
    var x: int, y: int := At(s.mem, s.Sp() - 16 + b), At(s.mem, s.Sp() - 20 + b);
    var p1 := [Lbu(TP, SP, VAR_A + b), Sb(TP, SP, VAR_D + 1), Lbu(TP, SP, VAR_B + b), Sb(TP, SP, VAR_D)];
    RunAppend(p1, [Lw(TP, SP, VAR_D), Add(TP, lut, TP), Lbu(TP, TP, 0), Sb(TP, SP, VAR_C + b)], s);
    PairOk(b, s);
    var s1 := Run(p1, s);
    StillReady(s, s1, t);
    OffsetBound(table);
    LookUpOk(t, lut, LUT + table.Offset(), 0x100 * x + y, b, s1);
    LogicEntry(table, x, y);
    LowByte(ByteOp(OpOf(table), x, y));
    StoreByteAt(s1.mem, s.Sp() - 24 + b, ByteOp(OpOf(table), x, y));
    StillReady(s1, Run(LogicByte(lut, b), s), t);
  }

  lemma LookUpOk(t: Word, lut: Reg, k: nat, index: nat, b: int, s: State)
    requires Ready(s, t) && lut !in {X0, SP, TP} && 0 <= b < 4
    requires s.Get(lut) == t + k && LoadWord(s.mem, s.Sp() - 28) == index
    requires SAME_RESULT <= k && k + index < SECTION
    ensures var s' := Run([Lw(TP, SP, VAR_D), Add(TP, lut, TP), Lbu(TP, TP, 0), Sb(TP, SP, VAR_C + b)], s);
      && Keeps(s.regs, s'.regs, {TP})
      && s'.mem == StoreByte(s.mem, s.Sp() - 24 + b, SectionByte(k + index))
  {
    hide Wrap, Run, ByteOf, Tables, SectionByte, At, LoadWord, StoreByte;
    Run4(Lw(TP, SP, VAR_D), Add(TP, lut, TP), Lbu(TP, TP, 0), Sb(TP, SP, VAR_C + b), s);
    Fetch(s.mem, t, k + index);
  }

  lemma OffsetBound(table: Table)
    ensures table.Offset() + table.Size() <= LUT_SIZE && table.Size() >= 0x8000
    ensures table in {And8, Or8, Xor8} ==> table.Size() == 0x1_0000
  {
  }

  /** A bitwise operation on words is the operation on their bytes. */
  lemma LogicBytes(op: Op, a: Word, b: Word)
    ensures forall k :: 0 <= k < 4 ==> ByteOf(Bitwise(op, a, b), k) == ByteOp(op, ByteOf(a, k), ByteOf(b, k))
  {
    hide BitOp, Up, High, Low, ByteOf;
    Pow2Values();
    var a', b', a'', b'' := High(a, 8), High(b, 8), High(a, 16), High(b, 16);
    BitOpSplit(op, 8, 24, a, b);
    BitOpSplit(op, 8, 16, a', b');
    HighAdd(a, 8, 8);
    HighAdd(b, 8, 8);
    BitOpSplit(op, 8, 8, a'', b'');
    HighAdd(a, 16, 8);
    HighAdd(b, 16, 8);
    DigitByte(op, a, b, 0);
    DigitByte(op, a, b, 1);
    DigitByte(op, a, b, 2);
    DigitByte(op, a, b, 3);
    UpMul(BitOp(op, 24, a', b'), 8);
    UpMul(BitOp(op, 16, a'', b''), 8);
    UpMul(BitOp(op, 8, High(a, 24), High(b, 24)), 8);
    BytesOfPack(ByteOp(op, ByteOf(a, 0), ByteOf(b, 0)), ByteOp(op, ByteOf(a, 1), ByteOf(b, 1)),
                ByteOp(op, ByteOf(a, 2), ByteOf(b, 2)), ByteOp(op, ByteOf(a, 3), ByteOf(b, 3)));
  }

  lemma DigitByte(op: Op, a: Word, b: Word, k: int)
    requires 0 <= k < 4
    ensures BitOp(op, 8, High(a, 8 * k), High(b, 8 * k)) == ByteOp(op, ByteOf(a, k), ByteOf(b, k))
    ensures k == 0 ==> High(a, 8 * k) == a && High(b, 8 * k) == b
  {
    hide BitOp, ByteOf, Low;
    ByteDigits(a, k);
    ByteDigits(b, k);
    BitOpLow(op, 8, High(a, 8 * k), High(b, 8 * k));
  }

  lemma LogicOk(t: Word, table: Table, rd: Reg, rs1: Reg, rs2: Reg, s: State)
    requires Ready(s, t) && table in {And8, Or8, Xor8} && rd !in {SP, TP}
    ensures Does(s, Run(Logic(t, table, rd, rs1, rs2), s), t, rd,
                 Bitwise(OpOf(table), s.Get(rs1), s.Get(rs2)))
  {
    if rd != X0 {
      LogicNonZero(t, table, rd, rs1, rs2, s);
    }
  }

  lemma SaveOperandsOk(rs1: Reg, rs2: Reg, s: State)
    requires 28 <= s.Sp()
    ensures var s' := Run([Sw(rs1, SP, VAR_A), Sw(rs2, SP, VAR_B)], s);
      && s'.regs == s.regs
      && Held(s'.mem, s.Sp() - 16, s.Get(rs1)) && Held(s'.mem, s.Sp() - 20, s.Get(rs2))
      && Same(s.mem, s'.mem, s.Sp() - 20, s.Sp() - 12)
  {
    hide Wrap, Run, ByteOf, At, StoreWord;
    Run2(Sw(rs1, SP, VAR_A), Sw(rs2, SP, VAR_B), s);
    StoreHolds(s.mem, s.Sp() - 16, s.Get(rs1));
    StoreHolds(StoreWord(s.mem, s.Sp() - 16, s.Get(rs1)), s.Sp() - 20, s.Get(rs2));
  }

  lemma LogicSaveOk(t: Word, lut: Reg, a: Word, rs1: Reg, rs2: Reg, s: State)
    requires Ready(s, t) && lut !in {X0, SP}
    ensures var s' := Run([Sw(rs1, SP, VAR_A), Sw(rs2, SP, VAR_B)] + La(lut, a) + [Sw(X0, SP, VAR_D)], s);
      && Ready(s', t)
      && s'.regs == s.regs[lut := a]
      && Held(s'.mem, s.Sp() - 16, s.Get(rs1)) && Held(s'.mem, s.Sp() - 20, s.Get(rs2))
      && At(s'.mem, s.Sp() - 26) == 0 && At(s'.mem, s.Sp() - 25) == 0
      && Same(s.mem, s'.mem, s.Sp() - 28, s.Sp())
  {
    hide Wrap, Run, ByteOf, Tables, At, La, StoreWord;
    var p := [Sw(rs1, SP, VAR_A), Sw(rs2, SP, VAR_B)];
    RunAppend(p + La(lut, a), [Sw(X0, SP, VAR_D)], s);
    RunAppend(p, La(lut, a), s);
    SaveOperandsOk(rs1, rs2, s);
    var s1 := Run(p, s);
    LaOk(lut, a, s1);
    Run1(Sw(X0, SP, VAR_D), s1.Set(lut, a));
    StoreHolds(s1.mem, s.Sp() - 28, 0);
    ZeroBytes();
    StillReady(s, Run(p + La(lut, a) + [Sw(X0, SP, VAR_D)], s), t);
  }

  lemma LogicNonZero(t: Word, table: Table, rd: Reg, rs1: Reg, rs2: Reg, s: State)
    requires Ready(s, t) && table in {And8, Or8, Xor8} && rd !in {X0, SP, TP}
    ensures Does(s, Run(Logic(t, table, rd, rs1, rs2), s), t, rd,
                 Bitwise(OpOf(table), s.Get(rs1), s.Get(rs2)))
  {
    hide Wrap, Run, ByteOf, Tables, OpOf, Table.Offset, LogicByte, La, LoadWord, Bitwise, At;
    var a, v := t + LUT + table.Offset(), Bitwise(OpOf(table), s.Get(rs1), s.Get(rs2));
    OffsetBound(table);
    var p1 := [Sw(rs1, SP, VAR_A), Sw(rs2, SP, VAR_B)] + La(rd, a) + [Sw(X0, SP, VAR_D)];
    var p2 := LogicByte(rd, 3) + LogicByte(rd, 2) + LogicByte(rd, 1) + LogicByte(rd, 0);
    assert Logic(t, table, rd, rs1, rs2) == p1 + p2 + [Lw(rd, SP, VAR_C)];
    RunAppend(p1 + p2, [Lw(rd, SP, VAR_C)], s);
    RunAppend(p1, p2, s);
    LogicSaveOk(t, rd, a, rs1, rs2, s);
    var s1 := Run(p1, s);
    LogicBytesOk(t, table, rd, s.Get(rs1), s.Get(rs2), s1);
    var s2 := Run(p2, s1);
    Run1(Lw(rd, SP, VAR_C), s2);
    LoadHeld(s2.mem, s.Sp() - 24, v);
  }

  /** Bytes `b` to 3 of the result are in place, and the operands as before. */
  predicate Done(op: Op, x: Word, y: Word, s: State, s': State, b: nat)
  {
    && Keeps(s.regs, s'.regs, {TP})
    && Same(s.mem, s'.mem, s.Sp() - 28, s.Sp() - 20)
    && 28 <= s.Sp() && At(s'.mem, s.Sp() - 26) == 0 && At(s'.mem, s.Sp() - 25) == 0
    && forall k :: b <= k < 4 ==> At(s'.mem, s.Sp() - 24 + k) == ByteOp(op, ByteOf(x, k), ByteOf(y, k))
  }

  predicate Operands(s: State, x: Word, y: Word)
  {
    28 <= s.Sp() && Held(s.mem, s.Sp() - 16, x) && Held(s.mem, s.Sp() - 20, y)
  }

  lemma OperandBytes(op: Op, x: Word, y: Word, s: State, s': State, c: nat, b: nat)
    requires Operands(s, x, y) && Done(op, x, y, s, s', c) && b < 4
    ensures At(s'.mem, s.Sp() - 16 + b) == ByteOf(x, b) && At(s'.mem, s.Sp() - 20 + b) == ByteOf(y, b)
  {
    hide ByteOf, ByteOp, At;
  }

  /** One byte more. */
  lemma LogicMore(t: Word, table: Table, lut: Reg, x: Word, y: Word, s: State, s1: State, b: nat)
    requires Ready(s, t) && Ready(s1, t) && table in {And8, Or8, Xor8} && b < 4
    requires lut !in {X0, SP, TP} && s.Get(lut) == t + LUT + table.Offset()
    requires Operands(s, x, y) && Done(OpOf(table), x, y, s, s1, b + 1)
    ensures var s' := Run(LogicByte(lut, b), s1);
      Ready(s', t) && Done(OpOf(table), x, y, s, s', b)
  {
    hide Run, ByteOf, Tables, Room, ByteOp, OpOf, Operands, Table.Offset, LogicByte, At;
    OperandBytes(OpOf(table), x, y, s, s1, b + 1, b);
    LogicByteOk(t, table, lut, b, s1);
  }

  lemma DoneHolds(op: Op, x: Word, y: Word, s: State, s': State)
    requires Done(op, x, y, s, s', 0)
    ensures Held(s'.mem, s.Sp() - 24, Bitwise(op, x, y))
  {
    hide ByteOf, ByteOp, At, Bitwise;
    LogicBytes(op, x, y);
  }

  lemma LogicBytesOk(t: Word, table: Table, lut: Reg, x: Word, y: Word, s: State)
    requires Ready(s, t) && table in {And8, Or8, Xor8}
    requires lut !in {X0, SP, TP} && s.Get(lut) == t + LUT + table.Offset()
    requires Held(s.mem, s.Sp() - 16, x) && Held(s.mem, s.Sp() - 20, y)
    requires At(s.mem, s.Sp() - 26) == 0 && At(s.mem, s.Sp() - 25) == 0
    ensures var s' := Run(LogicByte(lut, 3) + LogicByte(lut, 2) + LogicByte(lut, 1) + LogicByte(lut, 0), s);
      && Keeps(s.regs, s'.regs, {TP})
      && Same(s.mem, s'.mem, s.Sp() - 28, s.Sp() - 20)
      && Held(s'.mem, s.Sp() - 24, Bitwise(OpOf(table), x, y))
  {
    hide Run, ByteOf, Tables, ByteOp, OpOf, Table.Offset, LogicByte, Bitwise, At;
    assert Operands(s, x, y) && Done(OpOf(table), x, y, s, s, 4);
    hide Held, Keeps, Same, Operands;
    RunAppend(LogicByte(lut, 3) + LogicByte(lut, 2) + LogicByte(lut, 1), LogicByte(lut, 0), s);
    RunAppend(LogicByte(lut, 3) + LogicByte(lut, 2), LogicByte(lut, 1), s);
    RunAppend(LogicByte(lut, 3), LogicByte(lut, 2), s);
    LogicMore(t, table, lut, x, y, s, s, 3);
    var s3 := Run(LogicByte(lut, 3), s);
    LogicMore(t, table, lut, x, y, s, s3, 2);
    var s2 := Run(LogicByte(lut, 2), s3);
    LogicMore(t, table, lut, x, y, s, s2, 1);
    var s1 := Run(LogicByte(lut, 1), s2);
    LogicMore(t, table, lut, x, y, s, s1, 0);
    DoneHolds(OpOf(table), x, y, s, Run(LogicByte(lut, 0), s1));
  }
}
