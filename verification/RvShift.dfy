/** The shift macros. */
module RvShift {
  import opened Basics
  import opened RvMachine
  import opened Lut
  import opened RvMacros
  import opened RvEffects
  import opened RvCompare
  import Shifts
  import Bits

  lemma LowFive(b: Byte)
    ensures SectionByte(LUT + And8.Offset() + 0x1f * 0x100 + b) == b % 32
  {
    hide LutByte, Bits.BitOp, Bits.Low;
    LutEntry(And8, 0x1f, b, 0);
    Bits.Pow2Values();
    Bits.AndMask(8, 5, b);
    Bits.HighLow(b, 5);
    LowByte(b % 32);
  }

  lemma GetShamtOk(t: Word, rd: Reg, rs1: Reg, s: State)
    requires Ready(s, t) && rd !in {X0, SP, TP}
    ensures var s' := Run(GetShamt(t, rd, rs1), s);
      && s'.Get(rd) == s.Get(rs1) % 32
      && Keeps(s.regs, s'.regs, {rd, TP})
      && Same(s.mem, s'.mem, s.Sp() - 20, s.Sp() - 16)
  {
    hide Wrap, Run, ByteOf, Tables, At, La, StoreByte, SectionByte;
    var a := t + LUT + And8.Offset() + 0x1f * 0x100;
    var b := ByteOf(s.Get(rs1), 0);
    var p1, p2 := [Sb(rs1, SP, VAR_B), Lbu(rd, SP, VAR_B)], La(TP, a);
    RunAppend(p1 + p2, [Add(rd, rd, TP), Lbu(rd, rd, 0)], s);
    RunAppend(p1, p2, s);
    Run2(Sb(rs1, SP, VAR_B), Lbu(rd, SP, VAR_B), s);
    StoreByteAt(s.mem, s.Sp() - 20, s.Get(rs1));
    var s1 := Run(p1, s);
    LaOk(TP, a, s1);
    StillReady(s, Run(p2, s1), t);
    Run2(Add(rd, rd, TP), Lbu(rd, rd, 0), Run(p2, s1));
    Fetch(s1.mem, t, LUT + And8.Offset() + 0x1f * 0x100 + b);
    LowFive(b);
    ByteModulo(s.Get(rs1));
  }

  lemma ByteModulo(v: Word)
    ensures ByteOf(v, 0) % 32 == v % 32
  {
  }

  /** s0 points to the row for the shift amount, 256 words a row. */
  lemma ShiftRowOk(t: Word, table: Table, rs2: Reg, s: State)
    requires Ready(s, t) && table in {Sll8, Srl8}
    ensures var s' := Run(ShiftRow(t, table, rs2), s);
      && Ready(s', t)
      && s'.Get(S0) == t + LUT + table.Offset() + 0x400 * (s.Get(rs2) % 32)
      && Keeps(s.regs, s'.regs, {S0, TP})
      && Same(s.mem, s'.mem, s.Sp() - 20, s.Sp() - 16)
  {
    hide Wrap, Run, Tables, At, La, GetShamt, Slli;
    var n, a := s.Get(rs2) % 32, t + LUT + table.Offset();
    var p1, p2 := GetShamt(t, S0, rs2), [Sw(X0, SP, VAR_B), Sb(S0, SP, VAR_B + 1), Lw(S0, SP, VAR_B)];
    var p3, p4 := Slli(S0, S0, 2), La(TP, a);
    RunAppend(p1 + p2 + p3 + p4, [Add(S0, S0, TP)], s);
    RunAppend(p1 + p2 + p3, p4, s);
    RunAppend(p1 + p2, p3, s);
    RunAppend(p1, p2, s);
    GetShamtOk(t, S0, rs2, s);
    var s1 := Run(p1, s);
    UpByteOk(S0, s1);
    var s2 := Run(p2, s1);
    SlliSmall(S0, S0, 2, s2);
    FourTimes(0x100 * n);
    var s3 := Run(p3, s2);
    LaOk(TP, a, s3);
    Run1(Add(S0, S0, TP), Run(p4, s3));
    StillReady(s, Run(ShiftRow(t, table, rs2), s), t);
  }

  lemma FourTimes(v: Word)
    requires v < 0x1000_0000
    ensures Shifts.Sll(v, 2) == 4 * v
  {
    assert Bits.Pow2(2) == 4;
  }

  /** A byte stored one place up in a cleared word. */
  lemma UpByteOk(r: Reg, s: State)
    requires 28 <= s.Sp() && r !in {X0, SP} && s.Get(r) < 0x100
    ensures var s' := Run([Sw(X0, SP, VAR_B), Sb(r, SP, VAR_B + 1), Lw(r, SP, VAR_B)], s);
      && s'.regs == s.regs[r := 0x100 * s.Get(r)]
      && Same(s.mem, s'.mem, s.Sp() - 20, s.Sp() - 16)
  {
    hide Wrap, Run, ByteOf, StoreWord, StoreByte, At;
    Run3(Sw(X0, SP, VAR_B), Sb(r, SP, VAR_B + 1), Lw(r, SP, VAR_B), s);
    StoreHolds(s.mem, s.Sp() - 20, 0);
    ZeroBytes();
    StoreByteAt(StoreWord(s.mem, s.Sp() - 20, 0), s.Sp() - 19, s.Get(r));
    LowByte(s.Get(r));
  }

  /** The word of a shift table in row `n`, column `x`. */
  lemma EntryWord(m: Mem, t: Word, table: Table, n: nat, x: Byte)
    requires t + SECTION <= WORDS && Tables(m, t) && table in {Sll8, Srl8, Sra8} && n < 32
    ensures t + LUT + table.Offset() + 0x400 * n + 4 * x < WORDS - 3
    ensures LoadWord(m, t + LUT + table.Offset() + 0x400 * n + 4 * x) == table.Entry(n, x)
  {
    hide Wrap, ByteOf, Pack, Tables, At, Table.Entry, LutByte;
    var k := LUT + table.Offset() + 0x400 * n + 4 * x;
    LutWordEntry(table, n, x, 0);
    LutWordEntry(table, n, x, 1);
    LutWordEntry(table, n, x, 2);
    LutWordEntry(table, n, x, 3);
    Fetch(m, t, k);
    Fetch(m, t, k + 1);
    Fetch(m, t, k + 2);
    Fetch(m, t, k + 3);
    PackBytes(table.Entry(n, x));
  }

  lemma ShiftByteOk(t: Word, table: Table, base: Reg, n: nat, b: int, s: State)
    requires Ready(s, t) && table in {Sll8, Srl8, Sra8} && n < 32 && 0 <= b < 4 && base != TP
    requires s.Get(base) == t + LUT + table.Offset() + 0x400 * n
    ensures Run(ShiftByte(base, b), s) == s.Set(TP, table.Entry(n, At(s.mem, s.Sp() - 16 + b)))
  {
    hide Wrap, Run, Tables, At, Table.Entry, Slli, LoadWord, Table.Offset, Exec;
    var x: int := At(s.mem, s.Sp() - 16 + b);
    RunAppend([Lbu(TP, SP, VAR_A + b)] + Slli(TP, TP, 2), [Add(TP, base, TP), Lw(TP, TP, 0)], s);
    RunAppend([Lbu(TP, SP, VAR_A + b)], Slli(TP, TP, 2), s);
    LoadByteOk(TP, VAR_A + b, s);
    SlliSmall(TP, TP, 2, s.Set(TP, x));
    FourTimes(x);
    EntryWord(s.mem, t, table, n, x);
    IndexOk(base, t + LUT + table.Offset() + 0x400 * n + 4 * x, s.Set(TP, 4 * x));
    SetTwice(s, TP, x, 4 * x);
    SetTwice(s, TP, 4 * x, table.Entry(n, x));
  }

  lemma LoadByteOk(r: Reg, off: int, s: State)
    requires 28 <= s.Sp() && -28 <= off < 0
    ensures Run([Lbu(r, SP, off)], s) == s.Set(r, At(s.mem, s.Sp() + off))
  {
    hide Wrap, Run, At;
    Run1(Lbu(r, SP, off), s);
  }

  lemma SetTwice(s: State, r: Reg, v: Word, w: Word)
    ensures s.Set(r, v).Set(r, w) == s.Set(r, w)
  {
  }

  lemma IndexOk(base: Reg, k: Word, s: State)
    requires base != TP && s.Get(base) + s.Get(TP) == k
    ensures Run([Add(TP, base, TP), Lw(TP, TP, 0)], s) == s.Set(TP, LoadWord(s.mem, k))
  {
    hide Wrap, Run, LoadWord;
    Run2(Add(TP, base, TP), Lw(TP, TP, 0), s);
    SetTwice(s, TP, k, LoadWord(s.mem, k));
  }

  /** Stores a halfword byte by byte. */
  lemma ShOk(rs: Reg, base: Reg, off: int, s: State)
    requires 28 <= s.Sp() && base != TP
    ensures var s' := Run(Sh(rs, base, off), s);
      var a0, a1 := Wrap(s.Get(base) + off), Wrap(s.Get(base) + off + 1);
      && Keeps(s.regs, s'.regs, {TP})
      && At(s'.mem, a1) == ByteOf(s.Get(rs), 1)
      && (!(s.Sp() - 24 <= a0 < s.Sp() - 20) ==> At(s'.mem, a0) == ByteOf(s.Get(rs), 0))
      && forall a: Word :: a != a0 && a != a1 && !(s.Sp() - 24 <= a < s.Sp() - 20) ==> At(s'.mem, a) == At(s.mem, a)
  {
    hide Run, ByteOf, At, GetByte, StoreByte;
    var a0, a1, v := Wrap(s.Get(base) + off), Wrap(s.Get(base) + off + 1), s.Get(rs);
    assert a0 != a1;
    RunAppend([Sb(rs, base, off)] + GetByte(TP, rs, 1), [Sb(TP, base, off + 1)], s);
    RunAppend([Sb(rs, base, off)], GetByte(TP, rs, 1), s);
    Run1(Sb(rs, base, off), s);
    var s1 := Run([Sb(rs, base, off)], s);
    StoreByteAt(s.mem, a0, v);
    GetByteOk(TP, rs, 1, s1);
    var s2 := Run(GetByte(TP, rs, 1), s1);
    Run1(Sb(TP, base, off + 1), s2);
    StoreByteAt(s2.mem, a1, s2.Get(TP));
    LowByte(ByteOf(v, 1));
  }

  /** s0 at the row for `n` of a shift table, and the operand in its scratch word. */
  predicate AtRow(s: State, t: Word, table: Table, n: nat, x: Word)
  {
    && Ready(s, t) && n < 32
    && s.Get(S0) == t + LUT + table.Offset() + 0x400 * n
    && Held(s.mem, s.Sp() - 16, x)
  }

  lemma StillAtRow(s: State, s': State, t: Word, table: Table, n: nat, x: Word)
    requires AtRow(s, t, table, n, x)
    requires s'.Sp() == s.Sp() && s'.Get(S0) == s.Get(S0) && Same(s.mem, s'.mem, s.Sp() - 28, s.Sp() - 16)
    ensures AtRow(s', t, table, n, x)
  {
    hide At, Tables, ByteOf, Table.Offset;
    StillReady(s, s', t);
  }

  lemma RowByteOk(t: Word, table: Table, n: nat, x: Word, b: int, s: State)
    requires AtRow(s, t, table, n, x) && table in {Sll8, Srl8, Sra8} && 0 <= b < 4
    ensures Run(ShiftByte(S0, b), s) == s.Set(TP, table.Entry(n, ByteOf(x, b)))
  {
    hide At, Tables, ByteOf, Table.Offset, Table.Entry, ShiftByte, Run;
    ShiftByteOk(t, table, S0, n, b, s);
  }

  /** The low byte of tp read back as the top byte of an otherwise zero word. */
  lemma TopStoreOk(s: State)
    requires 28 <= s.Sp()
    requires At(s.mem, s.Sp() - 20) == 0 && At(s.mem, s.Sp() - 19) == 0 && At(s.mem, s.Sp() - 18) == 0
    ensures var s' := Run([Sb(TP, SP, VAR_B + 3), Lw(GP, SP, VAR_B)], s);
      && s'.regs == s.regs[GP := 0x100_0000 * ByteOf(s.Get(TP), 0)]
      && Same(s.mem, s'.mem, s.Sp() - 17, s.Sp() - 16)
  {
    hide Wrap, Run, ByteOf, At, StoreByte;
    Run2(Sb(TP, SP, VAR_B + 3), Lw(GP, SP, VAR_B), s);
    StoreByteAt(s.mem, s.Sp() - 17, s.Get(TP));
  }

  lemma ClearBOk(s: State)
    requires 28 <= s.Sp()
    ensures var s' := Run([Sw(X0, SP, VAR_B)], s);
      && s'.regs == s.regs && Same(s.mem, s'.mem, s.Sp() - 20, s.Sp() - 16)
      && At(s'.mem, s.Sp() - 20) == 0 && At(s'.mem, s.Sp() - 19) == 0 && At(s'.mem, s.Sp() - 18) == 0
  {
    hide Wrap, Run, ByteOf, At, StoreWord;
    Run1(Sw(X0, SP, VAR_B), s);
    StoreHolds(s.mem, s.Sp() - 20, 0);
    ZeroBytes();
  }

  /** gp = byte 3 of the operand, shifted, moved to the top. */
  lemma SllTopOk(t: Word, n: nat, x: Word, s: State)
    requires AtRow(s, t, Sll8, n, x)
    ensures var s' := Run([Sw(X0, SP, VAR_B)] + ShiftByte(S0, 3) + [Sb(TP, SP, VAR_B + 3), Lw(GP, SP, VAR_B)], s);
      && AtRow(s', t, Sll8, n, x)
      && s'.Get(GP) == 0x100_0000 * ByteOf(Shifts.Sll(ByteOf(x, 3), n), 0)
      && Keeps(s.regs, s'.regs, {GP, TP})
      && Same(s.mem, s'.mem, s.Sp() - 20, s.Sp() - 16)
      && At(s'.mem, s.Sp() - 20) == 0 && At(s'.mem, s.Sp() - 19) == 0
  {
    hide Run, ByteOf, Tables, At, Table.Offset, ShiftByte, Shifts.Sll, Exec, Held;
    var p1, p3 := [Sw(X0, SP, VAR_B)], [Sb(TP, SP, VAR_B + 3), Lw(GP, SP, VAR_B)];
    RunAppend(p1 + ShiftByte(S0, 3), p3, s);
    RunAppend(p1, ShiftByte(S0, 3), s);
    ClearBOk(s);
    var s1 := Run(p1, s);
    StillAtRow(s, s1, t, Sll8, n, x);
    RowByteOk(t, Sll8, n, x, 3, s1);
    var s2 := Run(ShiftByte(S0, 3), s1);
    TopStoreOk(s2);
    StillAtRow(s1, Run(p3, s2), t, Sll8, n, x);
  }

  /** Byte 2, shifted, moved up by a halfword and added; bytes 0 and 1 of the word it is
      put together in are zero. */
  lemma SllHalfOk(t: Word, n: nat, x: Word, s: State)
    requires AtRow(s, t, Sll8, n, x)
    requires At(s.mem, s.Sp() - 20) == 0 && At(s.mem, s.Sp() - 19) == 0
    ensures var y := Shifts.Sll(ByteOf(x, 2), n);
      var s' := Run(ShiftByte(S0, 2) + Sh(TP, SP, VAR_B + 2) + [Lw(TP, SP, VAR_B), Add(GP, GP, TP)], s);
      && AtRow(s', t, Sll8, n, x)
      && s'.Get(GP) == Wrap(s.Get(GP) + 0x1_0000 * (y % 0x1_0000))
      && Keeps(s.regs, s'.regs, {GP, TP})
      && Same(s.mem, s'.mem, s.Sp() - 24, s.Sp() - 16)
  {
    hide Wrap, Run, ByteOf, Tables, At, Table.Offset, ShiftByte, Shifts.Sll, Sh;
    var y := Shifts.Sll(ByteOf(x, 2), n);
    var p2, p3 := Sh(TP, SP, VAR_B + 2), [Lw(TP, SP, VAR_B), Add(GP, GP, TP)];
    RunAppend(ShiftByte(S0, 2) + p2, p3, s);
    RunAppend(ShiftByte(S0, 2), p2, s);
    RowByteOk(t, Sll8, n, x, 2, s);
    var s1 := Run(ShiftByte(S0, 2), s);
    ShOk(TP, SP, VAR_B + 2, s1);
    var s2 := Run(p2, s1);
    assert LoadWord(s2.mem, s.Sp() - 20) == Pack(0, 0, ByteOf(y, 0), ByteOf(y, 1));
    LowHalf(y);
    Run2(Lw(TP, SP, VAR_B), Add(GP, GP, TP), s2);
    StillAtRow(s, Run(p3, s2), t, Sll8, n, x);
  }

  lemma LowHalf(y: Word)
    ensures Pack(0, 0, ByteOf(y, 0), ByteOf(y, 1)) == 0x1_0000 * (y % 0x1_0000)
  {
    hide ByteOf;
    PackBytes(y);
    Bits.DivModUnique(y, 0x1_0000, ByteOf(y, 2) + 0x100 * ByteOf(y, 3), ByteOf(y, 0) + 0x100 * ByteOf(y, 1));
  }

  /** Bytes 1 and 0, shifted; the one is added, the other left in tp. */
  lemma SllLowOk(t: Word, n: nat, x: Word, s: State)
    requires AtRow(s, t, Sll8, n, x)
    ensures var s' := Run(ShiftByte(S0, 1) + Slli(TP, TP, 8) + [Add(GP, GP, TP)] + ShiftByte(S0, 0), s);
      && s'.mem == s.mem
      && s'.Get(GP) == Wrap(s.Get(GP) + Shifts.Sll(Shifts.Sll(ByteOf(x, 1), n), 8))
      && s'.Get(TP) == Shifts.Sll(ByteOf(x, 0), n)
      && Keeps(s.regs, s'.regs, {GP, TP})
  {
    hide Wrap, Run, ByteOf, Tables, At, Table.Offset, ShiftByte, Shifts.Sll, Slli;
    RunAppend(ShiftByte(S0, 1) + Slli(TP, TP, 8) + [Add(GP, GP, TP)], ShiftByte(S0, 0), s);
    RunAppend(ShiftByte(S0, 1) + Slli(TP, TP, 8), [Add(GP, GP, TP)], s);
    RunAppend(ShiftByte(S0, 1), Slli(TP, TP, 8), s);
    RowByteOk(t, Sll8, n, x, 1, s);
    var s1 := Run(ShiftByte(S0, 1), s);
    SlliSmall(TP, TP, 8, s1);
    var s2 := Run(Slli(TP, TP, 8), s1);
    Run1(Add(GP, GP, TP), s2);
    var s3 := Run([Add(GP, GP, TP)], s2);
    StillAtRow(s, s3, t, Sll8, n, x);
    RowByteOk(t, Sll8, n, x, 0, s3);
  }

  lemma SllSum(x: Word, n: nat)
    ensures var y3, y2 := Shifts.Sll(ByteOf(x, 3), n), Shifts.Sll(ByteOf(x, 2), n);
      var y1, y0 := Shifts.Sll(ByteOf(x, 1), n), Shifts.Sll(ByteOf(x, 0), n);
      Wrap(Wrap(Wrap(0x100_0000 * ByteOf(y3, 0) + 0x1_0000 * (y2 % 0x1_0000)) + Shifts.Sll(y1, 8)) + y0) == Shifts.Sll(x, n)
  {
    hide Shifts.Sll;
    PackBytes(x);
    Shifts.SllPieces(ByteOf(x, 3), ByteOf(x, 2), ByteOf(x, 1), ByteOf(x, 0), n);
    EightUp(Shifts.Sll(ByteOf(x, 1), n));
  }

  lemma EightUp(v: Word)
    ensures Shifts.Sll(v, 8) == v * 0x100 % WORDS
  {
    Bits.Pow2Values();
  }

  lemma ShiftSaveOk(t: Word, rs1: Reg, s: State)
    requires Ready(s, t)
    ensures var s' := Run([Sw(S0, SP, SAVE1), Sw(rs1, SP, VAR_A)], s);
      && Ready(s', t)
      && s'.regs == s.regs
      && Held(s'.mem, s.Sp() - 4, s.Get(S0)) && Held(s'.mem, s.Sp() - 16, s.Get(rs1))
      && Same(s.mem, s'.mem, s.Sp() - 28, s.Sp())
  {
    hide Wrap, Run, ByteOf, Tables, At, StoreWord;
    Run2(Sw(S0, SP, SAVE1), Sw(rs1, SP, VAR_A), s);
    StoreHolds(s.mem, s.Sp() - 4, s.Get(S0));
    StoreHolds(StoreWord(s.mem, s.Sp() - 4, s.Get(S0)), s.Sp() - 16, s.Get(rs1));
    StillReady(s, Run([Sw(S0, SP, SAVE1), Sw(rs1, SP, VAR_A)], s), t);
  }

  lemma RestoreAddOk(rd: Reg, v: Word, s: State)
    requires 28 <= s.Sp() && Held(s.mem, s.Sp() - 4, v)
    ensures Run(RestoreAdd(rd), s) == s.Set(S0, v).Set(rd, Wrap(s.Get(GP) + s.Get(TP)))
  {
    hide Wrap, Run, At, LoadWord;
    Run2(Lw(S0, SP, SAVE1), Add(rd, GP, TP), s);
    LoadHeld(s.mem, s.Sp() - 4, v);
  }

  lemma SllBytesOk(t: Word, n: nat, x: Word, s: State)
    requires AtRow(s, t, Sll8, n, x)
    ensures var s' := Run(SllBytes(), s);
      && Wrap(s'.Get(GP) + s'.Get(TP)) == Shifts.Sll(x, n)
      && Keeps(s.regs, s'.regs, {GP, TP})
      && Same(s.mem, s'.mem, s.Sp() - 24, s.Sp() - 16)
  {
    hide Wrap, Run, ByteOf, Tables, At, Table.Offset, ShiftByte, Shifts.Sll, Slli, Sh;
    var p1 := [Sw(X0, SP, VAR_B)] + ShiftByte(S0, 3) + [Sb(TP, SP, VAR_B + 3), Lw(GP, SP, VAR_B)];
    var p2 := ShiftByte(S0, 2) + Sh(TP, SP, VAR_B + 2) + [Lw(TP, SP, VAR_B), Add(GP, GP, TP)];
    var p3 := ShiftByte(S0, 1) + Slli(TP, TP, 8) + [Add(GP, GP, TP)];
    RunAppend(p1 + p2 + p3, ShiftByte(S0, 0), s);
    RunAppend(p1 + p2, p3, s);
    RunAppend(p1, p2, s);
    SllTopOk(t, n, x, s);
    var s1 := Run(p1, s);
    SllHalfOk(t, n, x, s1);
    var s2 := Run(p2, s1);
    RunAppend(p3, ShiftByte(S0, 0), s2);
    SllLowOk(t, n, x, s2);
    SllSum(x, n);
  }

  lemma SllOk(t: Word, rd: Reg, rs1: Reg, rs2: Reg, s: State)
    requires Ready(s, t)
    ensures Does(s, Run(RvMacros.Sll(t, rd, rs1, rs2), s), t, rd, Shifts.Sll(s.Get(rs1), s.Get(rs2) % 32))
  {
    hide Wrap, Run, ByteOf, Tables, At, Same, Clean, Table.Offset, ShiftRow, SllBytes, Shifts.Sll, RestoreAdd;
    var p1, p2, p3 := [Sw(S0, SP, SAVE1), Sw(rs1, SP, VAR_A)], ShiftRow(t, Sll8, rs2), SllBytes();
    RunAppend(p1 + p2, p3 + RestoreAdd(rd), s);
    RunAppend(p1, p2, s);
    ShiftSaveOk(t, rs1, s);
    var s1 := Run(p1, s);
    ShiftRowOk(t, Sll8, rs2, s1);
    var s2 := Run(p2, s1);
    RunAppend(p3, RestoreAdd(rd), s2);
    StillHeld(s1.mem, s2.mem, s.Sp() - 4, s.Get(S0), s.Sp() - 20, s.Sp() - 16);
    StillHeld(s1.mem, s2.mem, s.Sp() - 16, s.Get(rs1), s.Sp() - 20, s.Sp() - 16);
    SllBytesOk(t, s.Get(rs2) % 32, s.Get(rs1), s2);
    var s3 := Run(p3, s2);
    StillHeld(s2.mem, s3.mem, s.Sp() - 4, s.Get(S0), s.Sp() - 24, s.Sp() - 16);
    RestoreAddOk(rd, s.Get(S0), s3);
    SameClean(s.mem, s1.mem, s.Sp() - 28, s.Sp(), s.Sp(), t);
    SameClean(s1.mem, s2.mem, s.Sp() - 20, s.Sp() - 16, s.Sp(), t);
    SameClean(s2.mem, s3.mem, s.Sp() - 24, s.Sp() - 16, s.Sp(), t);
    CleanTwice(s.mem, s1.mem, s2.mem, s.Sp(), t);
    CleanTwice(s.mem, s2.mem, s3.mem, s.Sp(), t);
  }

  /** The three lower bytes' table words, each in a scratch word. */
  lemma PiecesOk(t: Word, n: nat, x: Word, s: State)
    requires AtRow(s, t, Srl8, n, x)
    ensures var s' := Run(ShiftByte(S0, 2) + [Sw(TP, SP, VAR_B)] + (ShiftByte(S0, 1) + [Sw(TP, SP, VAR_C)])
                          + (ShiftByte(S0, 0) + [Sw(TP, SP, VAR_D)]), s);
      && AtRow(s', t, Srl8, n, x)
      && Held(s'.mem, s.Sp() - 20, Shifts.Piece(ByteOf(x, 2), n))
      && Held(s'.mem, s.Sp() - 24, Shifts.Piece(ByteOf(x, 1), n))
      && Held(s'.mem, s.Sp() - 28, Shifts.Piece(ByteOf(x, 0), n))
      && Keeps(s.regs, s'.regs, {TP})
      && Same(s.mem, s'.mem, s.Sp() - 28, s.Sp() - 16)
  {
    hide Run, ByteOf, At, ShiftByte, AtRow, Held, Shifts.Piece;
    var c2, c1 := ShiftByte(S0, 2) + [Sw(TP, SP, VAR_B)], ShiftByte(S0, 1) + [Sw(TP, SP, VAR_C)];
    var c0 := ShiftByte(S0, 0) + [Sw(TP, SP, VAR_D)];
    RunAppend(c2 + c1, c0, s);
    RunAppend(c2, c1, s);
    PieceOk(t, n, x, 2, VAR_B, s);
    var s2 := Run(c2, s);
    PieceOk(t, n, x, 1, VAR_C, s2);
    var s1 := Run(c1, s2);
    PieceOk(t, n, x, 0, VAR_D, s1);
    var s0 := Run(c0, s1);
    StillHeld(s2.mem, s1.mem, s.Sp() - 20, Shifts.Piece(ByteOf(x, 2), n), s.Sp() - 24, s.Sp() - 20);
    StillHeld(s1.mem, s0.mem, s.Sp() - 20, Shifts.Piece(ByteOf(x, 2), n), s.Sp() - 28, s.Sp() - 24);
    StillHeld(s1.mem, s0.mem, s.Sp() - 24, Shifts.Piece(ByteOf(x, 1), n), s.Sp() - 28, s.Sp() - 24);
  }

  lemma PieceOk(t: Word, n: nat, x: Word, b: int, off: int, s: State)
    requires AtRow(s, t, Srl8, n, x) && 0 <= b < 4 && off in {VAR_B, VAR_C, VAR_D}
    ensures var s' := Run(ShiftByte(S0, b) + [Sw(TP, SP, off)], s);
      && AtRow(s', t, Srl8, n, x)
      && Held(s'.mem, s.Sp() + off, Shifts.Piece(ByteOf(x, b), n))
      && Keeps(s.regs, s'.regs, {TP})
      && Same(s.mem, s'.mem, s.Sp() + off, s.Sp() + off + 4)
  {
    hide Wrap, Run, ByteOf, At, Tables, Table.Offset, Table.Entry, ShiftByte, StoreWord, Shifts.Piece;
    SrlEntryPiece(n, ByteOf(x, b));
    RunAppend(ShiftByte(S0, b), [Sw(TP, SP, off)], s);
    RowByteOk(t, Srl8, n, x, b, s);
    var s1 := Run(ShiftByte(S0, b), s);
    Run1(Sw(TP, SP, off), s1);
    StoreHolds(s.mem, s.Sp() + off, s1.Get(TP));
    StillAtRow(s, Run([Sw(TP, SP, off)], s1), t, Srl8, n, x);
  }

  /** Byte 0 of the result. */
  lemma GatherLowOk(y2: Word, y1: Word, y0: Word, s: State)
    requires 28 <= s.Sp()
    requires Held(s.mem, s.Sp() - 20, y2) && Held(s.mem, s.Sp() - 24, y1) && Held(s.mem, s.Sp() - 28, y0)
    ensures var s' := Run([Lbu(GP, SP, VAR_B + 1), Lbu(TP, SP, VAR_C + 2), Add(GP, GP, TP), Lbu(TP, SP, VAR_D + 3), Add(GP, GP, TP)], s);
      && s'.mem == s.mem && Keeps(s.regs, s'.regs, {GP, TP})
      && s'.Get(GP) == ByteOf(y2, 1) + ByteOf(y1, 2) + ByteOf(y0, 3)
  {
    hide Wrap, Run, ByteOf, At;
    Run5(Lbu(GP, SP, VAR_B + 1), Lbu(TP, SP, VAR_C + 2), Add(GP, GP, TP), Lbu(TP, SP, VAR_D + 3), Add(GP, GP, TP), s);
  }

  /** Byte 1 of the result, byte 0 already stored as a word. */
  lemma GatherMidOk(y2: Word, y1: Word, s: State)
    requires 28 <= s.Sp() && Held(s.mem, s.Sp() - 20, y2) && Held(s.mem, s.Sp() - 24, y1)
    ensures var s' := Run([Sw(GP, SP, VAR_D), Lbu(GP, SP, VAR_B + 2), Lbu(TP, SP, VAR_C + 3), Add(GP, GP, TP)], s);
      && Keeps(s.regs, s'.regs, {GP, TP})
      && Held(s'.mem, s.Sp() - 28, s.Get(GP)) && Same(s.mem, s'.mem, s.Sp() - 28, s.Sp() - 24)
      && s'.Get(GP) == ByteOf(y2, 2) + ByteOf(y1, 3)
  {
    hide Wrap, Run, ByteOf, At, StoreWord;
    Run4(Sw(GP, SP, VAR_D), Lbu(GP, SP, VAR_B + 2), Lbu(TP, SP, VAR_C + 3), Add(GP, GP, TP), s);
    StoreHolds(s.mem, s.Sp() - 28, s.Get(GP));
  }

  /** Byte 2 of the result, and the three bytes read as a word. */
  lemma GatherTopOk(y2: Word, b0: Byte, s: State)
    requires 28 <= s.Sp() && Held(s.mem, s.Sp() - 20, y2) && Held(s.mem, s.Sp() - 28, b0) && s.Get(GP) < 0x100
    ensures var s' := Run([Sb(GP, SP, VAR_D + 1), Lbu(GP, SP, VAR_B + 3), Sb(GP, SP, VAR_D + 2), Lw(GP, SP, VAR_D)], s);
      && Keeps(s.regs, s'.regs, {GP})
      && Same(s.mem, s'.mem, s.Sp() - 28, s.Sp() - 24)
      && s'.Get(GP) == Pack(b0, s.Get(GP), ByteOf(y2, 3), 0)
  {
    hide Wrap, Run, ByteOf, At, StoreByte, Pack;
    Run4(Sb(GP, SP, VAR_D + 1), Lbu(GP, SP, VAR_B + 3), Sb(GP, SP, VAR_D + 2), Lw(GP, SP, VAR_D), s);
    var m := StoreByte(s.mem, s.Sp() - 27, s.Get(GP));
    StoreByteAt(s.mem, s.Sp() - 27, s.Get(GP));
    StoreByteAt(m, s.Sp() - 26, ByteOf(y2, 3));
    LowByte(s.Get(GP));
    LowByte(ByteOf(y2, 3));
    SmallBytes(b0);
  }

  lemma SmallBytes(b: Byte)
    ensures ByteOf(b, 0) == b && ByteOf(b, 1) == 0 && ByteOf(b, 2) == 0 && ByteOf(b, 3) == 0
  {
  }

  lemma SrlEntryPiece(n: nat, x: Byte)
    requires n < 32
    ensures Srl8.Entry(n, x) == Shifts.Piece(x, n)
  {
    hide Bits.High, Bits.Up, Bits.Pow2;
    Bits.Pow2Values();
    Bits.UpMul(x, 24);
    Bits.HighLow(0x100_0000 * x, n);
  }

  /** gp = the bytes of the result below the top one; no addition carries. */
  lemma SrlGatherOk(x2: Byte, x1: Byte, x0: Byte, n: nat, s: State)
    requires 28 <= s.Sp() && n < 32
    requires Held(s.mem, s.Sp() - 20, Shifts.Piece(x2, n))
    requires Held(s.mem, s.Sp() - 24, Shifts.Piece(x1, n))
    requires Held(s.mem, s.Sp() - 28, Shifts.Piece(x0, n))
    ensures var s' := Run(SrlGather(), s);
      && s'.Get(GP) == Shifts.Gathered(x2, x1, x0, n)
      && Keeps(s.regs, s'.regs, {GP, TP})
      && Same(s.mem, s'.mem, s.Sp() - 28, s.Sp() - 24)
  {
    hide Run, ByteOf, At, Pack, Shifts.Piece;
    var g1 := [Lbu(GP, SP, VAR_B + 1), Lbu(TP, SP, VAR_C + 2), Add(GP, GP, TP), Lbu(TP, SP, VAR_D + 3), Add(GP, GP, TP)];
    var g2 := [Sw(GP, SP, VAR_D), Lbu(GP, SP, VAR_B + 2), Lbu(TP, SP, VAR_C + 3), Add(GP, GP, TP)];
    var g3 := [Sb(GP, SP, VAR_D + 1), Lbu(GP, SP, VAR_B + 3), Sb(GP, SP, VAR_D + 2), Lw(GP, SP, VAR_D)];
    RunAppend(g1 + g2, g3, s);
    RunAppend(g1, g2, s);
    Shifts.NoCarry(x2, x1, x0, n);
    GatherLowOk(Shifts.Piece(x2, n), Shifts.Piece(x1, n), Shifts.Piece(x0, n), s);
    var s2 := Run(g1, s);
    GatherMidOk(Shifts.Piece(x2, n), Shifts.Piece(x1, n), s2);
    GatherTopOk(Shifts.Piece(x2, n), s2.Get(GP), Run(g2, s2));
  }

  lemma SrlBytesOk(t: Word, n: nat, x: Word, s: State)
    requires AtRow(s, t, Srl8, n, x)
    ensures var s' := Run(SrlBytes(), s);
      && AtRow(s', t, Srl8, n, x)
      && s'.Get(GP) == Shifts.Gathered(ByteOf(x, 2), ByteOf(x, 1), ByteOf(x, 0), n)
      && Keeps(s.regs, s'.regs, {GP, TP})
      && Same(s.mem, s'.mem, s.Sp() - 28, s.Sp() - 16)
  {
    hide Run, ByteOf, At, Tables, Table.Offset, ShiftByte, Shifts.Piece, Held, SrlGather, Shifts.Gathered;
    var p := ShiftByte(S0, 2) + [Sw(TP, SP, VAR_B)] + (ShiftByte(S0, 1) + [Sw(TP, SP, VAR_C)]) + (ShiftByte(S0, 0) + [Sw(TP, SP, VAR_D)]);
    RunAppend(p, SrlGather(), s);
    PiecesOk(t, n, x, s);
    var s1 := Run(p, s);
    SrlGatherOk(ByteOf(x, 2), ByteOf(x, 1), ByteOf(x, 0), n, s1);
    StillAtRow(s1, Run(SrlGather(), s1), t, Srl8, n, x);
  }

  function ShiftedRight(x: Word, n: nat, arith: bool): Word
  {
    if arith then Shifts.Sra(x, n) else Shifts.Srl(x, n)
  }

  /** The top byte's table word in tp. */
  lemma SrlTopOk(t: Word, n: nat, x: Word, arith: bool, s: State)
    requires AtRow(s, t, Srl8, n, x)
    ensures var p := (if arith then La(TP, Wrap(Sra8.Offset() - Srl8.Offset())) + [Add(S0, S0, TP)] else []) + ShiftByte(S0, 3);
      var s' := Run(p, s);
      && s'.mem == s.mem
      && s'.Get(TP) == ShiftedRight(0x100_0000 * ByteOf(x, 3), n, arith)
      && Keeps(s.regs, s'.regs, {S0, TP})
  {
    hide Wrap, Run, ByteOf, At, Tables, Shifts.Sra, Shifts.Srl, ShiftByte, La;
    if arith {
      var p := La(TP, Wrap(Sra8.Offset() - Srl8.Offset()));
      RunAppend(p + [Add(S0, S0, TP)], ShiftByte(S0, 3), s);
      RunAppend(p, [Add(S0, S0, TP)], s);
      LaOk(TP, 0x8000, s);
      Run1(Add(S0, S0, TP), s.Set(TP, 0x8000));
      var s1 := Exec(Add(S0, S0, TP), s.Set(TP, 0x8000));
      StillReady(s, s1, t);
      RowByteOk(t, Sra8, n, x, 3, s1);
    } else {
      assert [] + ShiftByte(S0, 3) == ShiftByte(S0, 3);
      RowByteOk(t, Srl8, n, x, 3, s);
    }
  }

  /** The sum of what the table holds for the top byte and the gathered bytes. */
  lemma ShiftRightSum(x: Word, n: nat, arith: bool)
    requires n < 32
    ensures Wrap(Shifts.Gathered(ByteOf(x, 2), ByteOf(x, 1), ByteOf(x, 0), n) + ShiftedRight(0x100_0000 * ByteOf(x, 3), n, arith))
         == ShiftedRight(x, n, arith)
  {
    hide Wrap, ByteOf, Shifts.Gathered, Shifts.Sra, Shifts.Srl, Shifts.Piece, Table.Offset;
    PackBytes(x);
    if arith {
      Shifts.SraPieces(ByteOf(x, 3), ByteOf(x, 2), ByteOf(x, 1), ByteOf(x, 0), n);
    } else {
      Shifts.SrlPieces(ByteOf(x, 3), ByteOf(x, 2), ByteOf(x, 1), ByteOf(x, 0), n);
      SrlEntryPiece(n, ByteOf(x, 3));
    }
  }

  /** From the row to the result, s0 restored. */
  lemma ShiftRightTail(t: Word, rd: Reg, n: nat, x: Word, v0: Word, arith: bool, s: State)
    requires AtRow(s, t, Srl8, n, x) && Held(s.mem, s.Sp() - 4, v0)
    ensures var s' := Run(SrlBytes() + SrlTop(rd, arith), s);
      && (rd != X0 ==> s'.Get(rd) == ShiftedRight(x, n, arith))
      && (rd != S0 ==> s'.Get(S0) == v0)
      && Keeps(s.regs, s'.regs, {rd, S0, GP, TP})
      && Same(s.mem, s'.mem, s.Sp() - 28, s.Sp() - 16)
  {
    hide Wrap, Run, ByteOf, At, Tables, ShiftedRight, ShiftByte, La, SrlBytes, Table.Offset, Shifts.Gathered, RestoreAdd;
    var p := (if arith then La(TP, Wrap(Sra8.Offset() - Srl8.Offset())) + [Add(S0, S0, TP)] else []) + ShiftByte(S0, 3);
    RunAppend(SrlBytes(), SrlTop(rd, arith), s);
    SrlBytesOk(t, n, x, s);
    var s1 := Run(SrlBytes(), s);
    assert SrlTop(rd, arith) == p + RestoreAdd(rd);
    RunAppend(p, RestoreAdd(rd), s1);
    SrlTopOk(t, n, x, arith, s1);
    var s2 := Run(p, s1);
    RestoreAddOk(rd, v0, s2);
    ShiftRightSum(x, n, arith);
  }

  lemma ShiftRightOk(t: Word, rd: Reg, rs1: Reg, rs2: Reg, arith: bool, s: State)
    requires Ready(s, t)
    ensures Does(s, Run(ShiftRight(t, rd, rs1, rs2, arith), s), t, rd, ShiftedRight(s.Get(rs1), s.Get(rs2) % 32, arith))
  {
    hide Wrap, Run, ByteOf, At, Tables, ShiftedRight, ShiftRow, SrlBytes, SrlTop, Table.Offset;
    var p1, p2 := [Sw(S0, SP, SAVE1), Sw(rs1, SP, VAR_A)], ShiftRow(t, Srl8, rs2);
    assert ShiftRight(t, rd, rs1, rs2, arith) == p1 + p2 + (SrlBytes() + SrlTop(rd, arith));
    RunAppend(p1 + p2, SrlBytes() + SrlTop(rd, arith), s);
    RunAppend(p1, p2, s);
    ShiftSaveOk(t, rs1, s);
    var s1 := Run(p1, s);
    ShiftRowOk(t, Srl8, rs2, s1);
    ShiftRightTail(t, rd, s.Get(rs2) % 32, s.Get(rs1), s.Get(S0), arith, Run(p2, s1));
  }

  lemma Sra24Ok(t: Word, rd: Reg, rs1: Reg, s: State)
    requires Ready(s, t) && rd != TP
    ensures Does(s, Run(ShiftRightImm(t, rd, rs1, 24, true), s), t, rd, Shifts.Sra(s.Get(rs1), 24))
  {
    hide Wrap, Run, ByteOf, At, Tables, StoreWord, LoadWord, La, Slli, Shifts.Sra, Table.Offset;
    OffsetRange();
    var a, x := t + LUT + Sra8.Offset() + 24 * 0x400, s.Get(rs1);
    var p1, p2 := [Sw(rs1, SP, VAR_A)] + La(TP, a), [Lbu(rd, SP, VAR_A + 3)] + Slli(rd, rd, 2) + [Add(TP, TP, rd), Lw(rd, TP, 0)];
    assert ShiftRightImm(t, rd, rs1, 24, true) == p1 + p2;
    RunAppend(p1, p2, s);
    RunAppend([Sw(rs1, SP, VAR_A)], La(TP, a), s);
    Run1(Sw(rs1, SP, VAR_A), s);
    StoreHolds(s.mem, s.Sp() - 16, x);
    LaOk(TP, a, Run([Sw(rs1, SP, VAR_A)], s));
    var s1 := Run(p1, s);
    StillReady(s, s1, t);
    TopEntryOk(t, rd, x, s1);
  }

  lemma OffsetRange()
    ensures Sra8.Offset() == 0x4_0000 && Srl8.Offset() == 0x3_8000
  {
  }

  lemma TopEntryOk(t: Word, rd: Reg, x: Word, s: State)
    requires Ready(s, t) && Held(s.mem, s.Sp() - 16, x) && s.Get(TP) == t + LUT + Sra8.Offset() + 24 * 0x400 && rd != TP
    ensures var s' := Run([Lbu(rd, SP, VAR_A + 3)] + Slli(rd, rd, 2) + [Add(TP, TP, rd), Lw(rd, TP, 0)], s);
      && s'.mem == s.mem
      && (rd != X0 ==> s'.Get(rd) == Shifts.Sra(x, 24))
      && Keeps(s.regs, s'.regs, {rd, TP})
  {
    hide Wrap, Run, ByteOf, At, Tables, LoadWord, Slli, Shifts.Sra, Table.Offset, Table.Entry;
    var p, b: int := [Lbu(rd, SP, VAR_A + 3)], ByteOf(x, 3);
    RunAppend(p + Slli(rd, rd, 2), [Add(TP, TP, rd), Lw(rd, TP, 0)], s);
    RunAppend(p, Slli(rd, rd, 2), s);
    LoadByteOk(rd, VAR_A + 3, s);
    SlliSmall(rd, rd, 2, s.Set(rd, b));
    FourTimes(b);
    EntryWord(s.mem, t, Sra8, 24, b);
    var s1 := Run(Slli(rd, rd, 2), Run(p, s));
    Run2(Add(TP, TP, rd), Lw(rd, TP, 0), s1);
    TopEntry(x);
  }

  lemma TopEntry(x: Word)
    ensures Sra8.Entry(24, ByteOf(x, 3)) == Shifts.Sra(x, 24)
  {
    hide Bits.Pow2;
    Bits.Pow2Values();
    TopSigned(x);
  }

  lemma TopSigned(x: Word)
    ensures Shifts.Signed(0x100_0000 * ByteOf(x, 3)) / 0x100_0000 == Shifts.Signed(x) / 0x100_0000
  {
    hide ByteOf;
    PackBytes(x);
    var low := x - 0x100_0000 * ByteOf(x, 3);
    var top := Shifts.Signed(0x100_0000 * ByteOf(x, 3)) / 0x100_0000;
    assert Shifts.Signed(x) == 0x100_0000 * top + low;
  }
}
