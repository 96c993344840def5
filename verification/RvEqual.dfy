/** The equality and zero tests. */
module RvEqual {
  import opened Basics
  import opened RvMachine
  import opened Lut
  import opened RvMacros
  import opened RvEffects
  import opened RvCompare

  function Differ(m: Mem, sp: int, b: int): int
    requires 28 <= sp < WORDS && 0 <= b < 4
  {
    if At(m, sp - 16 + b) == At(m, sp - 20 + b) then 0 else 1
  }

  /** Writes 1 at the place of the first byte. */
  lemma MarkOk(t: Word, rd: Reg, b: int, s: State)
    requires Room(s, t) && 0 <= b < 4 && rd !in {X0, SP, TP, S0} && s.Get(S0) == t
    ensures var x := At(s.mem, s.Sp() - 16 + b);
      var s' := Run([Lbu(rd, SP, VAR_A + b), Add(TP, S0, rd), Addi(rd, X0, 1), Sb(rd, TP, 0)], s);
      && s'.Get(TP) == t + x && Keeps(s.regs, s'.regs, {rd, TP})
      && s'.mem == StoreByte(s.mem, t + x, 1)
  {
    hide Wrap, Run, ByteOf, StoreByte, At;
    Run4(Lbu(rd, SP, VAR_A + b), Add(TP, S0, rd), Addi(rd, X0, 1), Sb(rd, TP, 0), s);
  }

  /** Writes 0 at the place of the second byte and reads back the first. */
  lemma UnmarkOk(t: Word, rd: Reg, b: int, s: State)
    requires Room(s, t) && 0 <= b < 4 && rd !in {X0, SP, TP, S0} && s.Get(S0) == t
    ensures var y := At(s.mem, s.Sp() - 20 + b);
      var s' := Run([Lbu(rd, SP, VAR_B + b), Add(rd, S0, rd), Sb(X0, rd, 0), Lbu(rd, TP, 0)], s);
      && s'.mem == StoreByte(s.mem, t + y, 0)
      && s'.Get(rd) == At(s'.mem, s.Get(TP)) && Keeps(s.regs, s'.regs, {rd})
  {
    hide Wrap, Run, ByteOf, StoreByte, At;
    Run4(Lbu(rd, SP, VAR_B + b), Add(rd, S0, rd), Sb(X0, rd, 0), Lbu(rd, TP, 0), s);
  }

  /** Right whatever the array held before. */
  lemma CheckSameOk(t: Word, rd: Reg, b: int, s: State)
    requires Room(s, t) && 0 <= b < 4 && rd !in {X0, SP, TP, S0} && s.Get(S0) == t
    ensures var s' := Run(CheckSame(S0, rd, b), s);
      && s'.Get(rd) == Differ(s.mem, s.Sp(), b)
      && Keeps(s.regs, s'.regs, {rd, TP})
      && Same(s.mem, s'.mem, t, t + SAME_RESULT)
  {
    hide Wrap, Run, ByteOf, StoreByte, Exec, At;
    var x, y := At(s.mem, s.Sp() - 16 + b), At(s.mem, s.Sp() - 20 + b);
    var p1 := [Lbu(rd, SP, VAR_A + b), Add(TP, S0, rd), Addi(rd, X0, 1), Sb(rd, TP, 0)];
    RunAppend(p1, [Lbu(rd, SP, VAR_B + b), Add(rd, S0, rd), Sb(X0, rd, 0), Lbu(rd, TP, 0)], s);
    MarkOk(t, rd, b, s);
    var s1 := Run(p1, s);
    StoreByteAt(s.mem, t + x, 1);
    LowByte(1);
    UnmarkOk(t, rd, b, s1);
    StoreByteAt(s1.mem, t + y, 0);
    LowByte(0);
  }

  /** One more byte compared and counted in gp. */
  lemma CountDifferOk(t: Word, b: int, s: State)
    requires Room(s, t) && 0 <= b < 4 && s.Get(S0) == t && s.Get(GP) < 4
    ensures var s' := Run(CheckSame(S0, S1, b) + [Add(GP, GP, S1)], s);
      && s'.Get(GP) == s.Get(GP) + Differ(s.mem, s.Sp(), b)
      && Keeps(s.regs, s'.regs, {GP, S1, TP})
      && Same(s.mem, s'.mem, t, t + SAME_RESULT)
  {
    hide Wrap, Run, At, CheckSame;
    RunAppend(CheckSame(S0, S1, b), [Add(GP, GP, S1)], s);
    CheckSameOk(t, S1, b, s);
    Run1(Add(GP, GP, S1), Run(CheckSame(S0, S1, b), s));
  }

  lemma SeqCountOk(t: Word, x: Word, y: Word, s: State)
    requires Room(s, t) && s.Get(S0) == t
    requires Held(s.mem, s.Sp() - 16, x) && Held(s.mem, s.Sp() - 20, y)
    ensures var s' := Run(SeqCount(), s);
      && s'.Get(GP) <= 4 && (s'.Get(GP) == 0 <==> x == y)
      && Keeps(s.regs, s'.regs, {GP, S1, TP})
      && Same(s.mem, s'.mem, t, t + SAME_RESULT)
  {
    hide Run, CheckSame, ByteOf, At;
    var c0, c1 := CheckSame(S0, GP, 0), CheckSame(S0, S1, 1) + [Add(GP, GP, S1)];
    var c2, c3 := CheckSame(S0, S1, 2) + [Add(GP, GP, S1)], CheckSame(S0, S1, 3) + [Add(GP, GP, S1)];
    RunAppend(c0 + c1 + c2, c3, s);
    RunAppend(c0 + c1, c2, s);
    RunAppend(c0, c1, s);
    CheckSameOk(t, GP, 0, s);
    var s1 := Run(c0, s);
    CountDifferOk(t, 1, s1);
    var s2 := Run(c1, s1);
    CountDifferOk(t, 2, s2);
    var s3 := Run(c2, s2);
    CountDifferOk(t, 3, s3);
    if Run(c3, s3).Get(GP) == 0 {
      SameWord(x, y);
    }
  }

  lemma SameWord(x: Word, y: Word)
    requires ByteOf(x, 0) == ByteOf(y, 0) && ByteOf(x, 1) == ByteOf(y, 1)
    requires ByteOf(x, 2) == ByteOf(y, 2) && ByteOf(x, 3) == ByteOf(y, 3)
    ensures x == y
  {
    PackBytes(x);
    PackBytes(y);
  }

  /** The flag for "every byte compared equal". */
  lemma AllSame(n: int)
    requires 0 <= n <= 4
    ensures SectionByte(SAME_RESULT + n) == if n == 0 then 1 else 0
  {
  }

  function Equal(x: Word, y: Word): Word
  {
    if x == y then 1 else 0
  }

  /** `seq` is right unless the result register is one that it restores at the end. */
  lemma SeqOk(t: Word, rd: Reg, rs1: Reg, rs2: Reg, s: State)
    requires Ready(s, t) && rd !in {SP, S0, S1}
    ensures Does(s, Run(Seq(t, rd, rs1, rs2), s), t, rd, Equal(s.Get(rs1), s.Get(rs2)))
  {
    hide Run, ByteOf, Tables, At, SeqSave, SeqCount, SeqFetch, SectionByte;
    var x, y := s.Get(rs1), s.Get(rs2);
    RunAppend(SeqSave(t, rs1, rs2) + SeqCount(), SeqFetch(t, rd), s);
    RunAppend(SeqSave(t, rs1, rs2), SeqCount(), s);
    SeqSaveOk(t, rs1, rs2, s);
    var s1 := Run(SeqSave(t, rs1, rs2), s);
    SeqCountOk(t, x, y, s1);
    var s2 := Run(SeqCount(), s1);
    StillReady(s1, s2, t);
    SeqFetchOk(t, rd, s.Get(S0), s.Get(S1), s2);
  }

  lemma SeqSaveOk(t: Word, rs1: Reg, rs2: Reg, s: State)
    requires Ready(s, t)
    ensures var s' := Run(SeqSave(t, rs1, rs2), s);
      && Ready(s', t)
      && s'.regs == s.regs[S0 := t]
      && Held(s'.mem, s.Sp() - 16, s.Get(rs1)) && Held(s'.mem, s.Sp() - 20, s.Get(rs2))
      && Held(s'.mem, s.Sp() - 4, s.Get(S0)) && Held(s'.mem, s.Sp() - 8, s.Get(S1))
      && Same(s.mem, s'.mem, s.Sp() - 28, s.Sp())
  {
    hide Wrap, Run, ByteOf, Tables, At, La, StoreWord;
    var sp := s.Sp();
    var p := [Sw(rs1, SP, VAR_A), Sw(rs2, SP, VAR_B), Sw(S0, SP, SAVE1), Sw(S1, SP, SAVE2)];
    RunAppend(p, La(S0, Wrap(t)), s);
    Run4(Sw(rs1, SP, VAR_A), Sw(rs2, SP, VAR_B), Sw(S0, SP, SAVE1), Sw(S1, SP, SAVE2), s);
    var m1 := StoreWord(s.mem, sp - 16, s.Get(rs1));
    var m2 := StoreWord(m1, sp - 20, s.Get(rs2));
    var m3 := StoreWord(m2, sp - 4, s.Get(S0));
    StoreHolds(s.mem, sp - 16, s.Get(rs1));
    StoreHolds(m1, sp - 20, s.Get(rs2));
    StoreHolds(m2, sp - 4, s.Get(S0));
    StoreHolds(m3, sp - 8, s.Get(S1));
    LaOk(S0, t, Run(p, s));
    StillReady(s, Run(La(S0, Wrap(t)), Run(p, s)), t);
  }

  lemma SeqFetchOk(t: Word, rd: Reg, v0: Word, v1: Word, s: State)
    requires Ready(s, t) && rd !in {SP, S0, S1} && s.Get(GP) <= 4
    requires Held(s.mem, s.Sp() - 4, v0) && Held(s.mem, s.Sp() - 8, v1)
    ensures var s' := Run(SeqFetch(t, rd), s);
      && s'.mem == s.mem
      && (rd != X0 ==> s'.Get(rd) == if s.Get(GP) == 0 then 1 else 0)
      && s'.Get(S0) == v0 && s'.Get(S1) == v1
      && Keeps(s.regs, s'.regs, {rd, TP, S0, S1})
  {
    hide Wrap, Run, Tables, At, La, LoadWord, SectionByte;
    var p1, p2 := La(TP, Wrap(t + SAME_RESULT)), [Lbu(rd, TP, 0), Lw(S1, SP, SAVE2), Lw(S0, SP, SAVE1)];
    RunAppend(p1 + [Add(TP, TP, GP)], p2, s);
    RunAppend(p1, [Add(TP, TP, GP)], s);
    LaOk(TP, t + SAME_RESULT, s);
    Run1(Add(TP, TP, GP), s.Set(TP, t + SAME_RESULT));
    Run3(Lbu(rd, TP, 0), Lw(S1, SP, SAVE2), Lw(S0, SP, SAVE1), Exec(Add(TP, TP, GP), s.Set(TP, t + SAME_RESULT)));
    LoadHeld(s.mem, s.Sp() - 4, v0);
    LoadHeld(s.mem, s.Sp() - 8, v1);
    Fetch(s.mem, t, SAME_RESULT + s.Get(GP));
    AllSame(s.Get(GP));
  }

  function NonZero(m: Mem, sp: int, b: int): int
    requires 28 <= sp < WORDS && 0 <= b < 4
  {
    if At(m, sp - 16 + b) == 0 then 0 else 1
  }

  lemma CheckZeroOk(t: Word, rd: Reg, b: int, s: State)
    requires Ready(s, t) && 0 <= b < 4 && rd !in {X0, SP, S0} && s.Get(S0) == t + CHECK_ZERO
    ensures Run(CheckZero(S0, rd, b), s) == s.Set(rd, NonZero(s.mem, s.Sp(), b))
  {
    hide Wrap, Run, At, Tables, SectionByte;
    Run3(Lbu(rd, SP, VAR_A + b), Add(rd, S0, rd), Lbu(rd, rd, 0), s);
    var x := At(s.mem, s.Sp() - 16 + b);
    Fetch(s.mem, t, CHECK_ZERO + x);
    ZeroEntry(x);
  }

  lemma ZeroEntry(x: Byte)
    ensures SectionByte(CHECK_ZERO + x) == if x == 0 then 0 else 1
  {
  }

  lemma CountNonZeroOk(t: Word, b: int, s: State)
    requires Ready(s, t) && 0 <= b < 4 && s.Get(S0) == t + CHECK_ZERO && s.Get(GP) < 4
    ensures var s' := Run(CheckZero(S0, TP, b) + [Add(GP, GP, TP)], s);
      && s'.Get(GP) == s.Get(GP) + NonZero(s.mem, s.Sp(), b)
      && Keeps(s.regs, s'.regs, {GP, TP})
      && s'.mem == s.mem
  {
    hide Wrap, Run, At, CheckZero, Tables;
    RunAppend(CheckZero(S0, TP, b), [Add(GP, GP, TP)], s);
    CheckZeroOk(t, TP, b, s);
    Run1(Add(GP, GP, TP), Run(CheckZero(S0, TP, b), s));
  }

  lemma SeqzCountOk(t: Word, x: Word, s: State)
    requires Ready(s, t) && s.Get(S0) == t + CHECK_ZERO && Held(s.mem, s.Sp() - 16, x)
    ensures var s' := Run(SeqzCount(), s);
      && s'.Get(GP) <= 4 && (s'.Get(GP) == 0 <==> x == 0)
      && Keeps(s.regs, s'.regs, {GP, TP})
      && s'.mem == s.mem
  {
    hide Run, CheckZero, ByteOf, At, Tables;
    var c0, c1 := CheckZero(S0, GP, 0), CheckZero(S0, TP, 1) + [Add(GP, GP, TP)];
    var c2, c3 := CheckZero(S0, TP, 2) + [Add(GP, GP, TP)], CheckZero(S0, TP, 3) + [Add(GP, GP, TP)];
    RunAppend(c0 + c1 + c2, c3, s);
    RunAppend(c0 + c1, c2, s);
    RunAppend(c0, c1, s);
    CheckZeroOk(t, GP, 0, s);
    var s1 := Run(c0, s);
    CountNonZeroOk(t, 1, s1);
    var s2 := Run(c1, s1);
    CountNonZeroOk(t, 2, s2);
    var s3 := Run(c2, s2);
    CountNonZeroOk(t, 3, s3);
    ZeroWord(x);
  }

  lemma ZeroWord(x: Word)
    ensures x == 0 <==> ByteOf(x, 0) == 0 && ByteOf(x, 1) == 0 && ByteOf(x, 2) == 0 && ByteOf(x, 3) == 0
  {
    PackBytes(x);
  }

  lemma SeqzSaveOk(t: Word, rs1: Reg, s: State)
    requires Ready(s, t)
    ensures var s' := Run([Sw(rs1, SP, VAR_A), Sw(S0, SP, SAVE1)] + La(S0, Wrap(t + CHECK_ZERO)), s);
      && Ready(s', t)
      && s'.regs == s.regs[S0 := t + CHECK_ZERO]
      && Held(s'.mem, s.Sp() - 16, s.Get(rs1)) && Held(s'.mem, s.Sp() - 4, s.Get(S0))
      && Same(s.mem, s'.mem, s.Sp() - 28, s.Sp())
  {
    hide Wrap, Run, ByteOf, Tables, At, La, StoreWord;
    var sp := s.Sp();
    var p := [Sw(rs1, SP, VAR_A), Sw(S0, SP, SAVE1)];
    RunAppend(p, La(S0, Wrap(t + CHECK_ZERO)), s);
    Run2(Sw(rs1, SP, VAR_A), Sw(S0, SP, SAVE1), s);
    StoreHolds(s.mem, sp - 16, s.Get(rs1));
    StoreHolds(StoreWord(s.mem, sp - 16, s.Get(rs1)), sp - 4, s.Get(S0));
    LaOk(S0, t + CHECK_ZERO, Run(p, s));
    StillReady(s, Run(La(S0, t + CHECK_ZERO), Run(p, s)), t);
  }

  lemma SeqzFetchOk(t: Word, rd: Reg, v0: Word, s: State)
    requires Ready(s, t) && rd != SP && s.Get(GP) <= 4
    requires Held(s.mem, s.Sp() - 4, v0)
    ensures var s' := Run(SeqzFetch(t, rd), s);
      && s'.mem == s.mem
      && (rd !in {X0, S0} ==> s'.Get(rd) == if s.Get(GP) == 0 then 1 else 0)
      && s'.Get(S0) == v0
      && Keeps(s.regs, s'.regs, {rd, TP, S0})
  {
    hide Wrap, Run, Tables, At, La, LoadWord, SectionByte;
    RunAppend(La(TP, Wrap(t + SAME_RESULT)), [Add(TP, TP, GP), Lbu(rd, TP, 0), Lw(S0, SP, SAVE1)], s);
    LaOk(TP, t + SAME_RESULT, s);
    Run3(Add(TP, TP, GP), Lbu(rd, TP, 0), Lw(S0, SP, SAVE1), s.Set(TP, t + SAME_RESULT));
    LoadHeld(s.mem, s.Sp() - 4, v0);
    Fetch(s.mem, t, SAME_RESULT + s.Get(GP));
    AllSame(s.Get(GP));
  }

  lemma SeqzRun(t: Word, rd: Reg, rs1: Reg, s: State)
    requires Ready(s, t) && rd != SP
    ensures var s' := Run(Seqz(t, rd, rs1), s);
      && (rd !in {X0, S0} ==> s'.Get(rd) == Equal(s.Get(rs1), 0))
      && (rd == S0 ==> s'.Get(S0) == s.Get(S0))
      && Keeps(s.regs, s'.regs, {rd, TP, GP})
      && Clean(s.mem, s'.mem, s.Sp(), t)
  {
    hide Run, ByteOf, Tables, At, SeqzCount, SeqzFetch, La, SectionByte, Wrap;
    var x := s.Get(rs1);
    var p1 := [Sw(rs1, SP, VAR_A), Sw(S0, SP, SAVE1)] + La(S0, Wrap(t + CHECK_ZERO));
    RunAppend(p1 + SeqzCount(), SeqzFetch(t, rd), s);
    RunAppend(p1, SeqzCount(), s);
    SeqzSaveOk(t, rs1, s);
    var s1 := Run(p1, s);
    SeqzCountOk(t, x, s1);
    var s2 := Run(SeqzCount(), s1);
    StillReady(s1, s2, t);
    SeqzFetchOk(t, rd, s.Get(S0), s2);
  }

  lemma SeqzOk(t: Word, rd: Reg, rs1: Reg, s: State)
    requires Ready(s, t) && rd !in {SP, S0}
    ensures Does(s, Run(Seqz(t, rd, rs1), s), t, rd, Equal(s.Get(rs1), 0))
  {
    hide Run, Seqz, Tables, At;
    SeqzRun(t, rd, rs1, s);
  }
}
