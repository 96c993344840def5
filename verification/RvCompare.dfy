/** The comparison macros: slt and sltu through the sign table, equality through the
    write-one-write-zero array, and the zero test. */
module RvCompare {
  import opened Basics
  import opened RvMachine
  import opened Lut
  import opened RvMacros
  import opened RvEffects
  import Shifts

  /** A macro leaves `v` in `rd` and touches nothing else but tp, gp, the scratch words
      and the array that `seq` writes. */
  predicate Does(s: State, s': State, t: Word, rd: Reg, v: Word)
  {
    && (rd != X0 ==> s'.Get(rd) == v)
    && Keeps(s.regs, s'.regs, {rd, TP, GP})
    && Clean(s.mem, s'.mem, s.Sp(), t)
  }

  function Sign(v: Word): (b: int)
    ensures 0 <= b <= 1
  {
    v / 0x8000_0000
  }

  function Less(a: Word, b: Word): Word
  {
    if Shifts.Signed(a) < Shifts.Signed(b) then 1 else 0
  }

  function LessU(a: Word, b: Word): Word
  {
    if a < b then 1 else 0
  }

  /** Memory after the three stores. */
  function Saved(s: State, rs2: Reg): Mem
    requires 28 <= s.Sp()
  {
    StoreWord(StoreWord(StoreWord(s.mem, s.Sp() - 4, s.Get(S0)), s.Sp() - 8, s.Get(S1)), s.Sp() - 16, s.Get(rs2))
  }

  lemma SavedHolds(s: State, rs2: Reg)
    requires 28 <= s.Sp()
    ensures var m := Saved(s, rs2);
      && Held(m, s.Sp() - 4, s.Get(S0)) && Held(m, s.Sp() - 8, s.Get(S1)) && LoadWord(m, s.Sp() - 16) == s.Get(rs2)
      && Same(s.mem, m, s.Sp() - 16, s.Sp())
  {
    hide Held, Same, StoreWord, LoadWord;
    var sp := s.Sp();
    var m1 := StoreWord(s.mem, sp - 4, s.Get(S0));
    var m2 := StoreWord(m1, sp - 8, s.Get(S1));
    var m3 := StoreWord(m2, sp - 16, s.Get(rs2));
    StoreHolds(s.mem, sp - 4, s.Get(S0));
    StoreHolds(m1, sp - 8, s.Get(S1));
    StoreHolds(m2, sp - 16, s.Get(rs2));
    StillHeld(m1, m2, sp - 4, s.Get(S0), sp - 8, sp - 4);
    StillHeld(m2, m3, sp - 4, s.Get(S0), sp - 16, sp - 12);
    StillHeld(m2, m3, sp - 8, s.Get(S1), sp - 16, sp - 12);
    SameTwice(s.mem, m1, m2, sp - 4, sp, sp - 8, sp - 4);
    SameTwice(s.mem, m2, m3, sp - 8, sp, sp - 16, sp - 12);
    LoadHeld(m3, sp - 16, s.Get(rs2));
  }

  lemma StoreRuns(r: Reg, off: int, s: State)
    requires 0 <= s.Sp() + off < WORDS
    ensures Exec(Sw(r, SP, off), s) == State(s.regs, StoreWord(s.mem, s.Sp() + off, s.Get(r)))
  {
    hide StoreWord;
  }

  lemma SavesRun(rs2: Reg, s: State)
    requires 28 <= s.Sp()
    ensures Run([Sw(S0, SP, SAVE1), Sw(S1, SP, SAVE2), Sw(rs2, SP, VAR_A)], s) == State(s.regs, Saved(s, rs2))
  {
    hide Run, StoreWord, Exec;
    Run3(Sw(S0, SP, SAVE1), Sw(S1, SP, SAVE2), Sw(rs2, SP, VAR_A), s);
    StoreRuns(S0, SAVE1, s);
    var s1 := Exec(Sw(S0, SP, SAVE1), s);
    StoreRuns(S1, SAVE2, s1);
    StoreRuns(rs2, VAR_A, Exec(Sw(S1, SP, SAVE2), s1));
  }

  lemma MoveRuns(rs1: Reg, s: State)
    ensures Exec(Mv(S0, rs1), s) == s.Set(S0, s.Get(rs1))
  {
    hide Wrap;
  }

  lemma LoadRuns(s: State, v: Word)
    requires 28 <= s.Sp() && LoadWord(s.mem, s.Sp() - 16) == v
    ensures Exec(Lw(S1, SP, VAR_A), s) == s.Set(S1, v)
  {
    hide Wrap, LoadWord;
  }

  lemma MovesRun(rs1: Reg, s: State, v: Word)
    requires 28 <= s.Sp() && LoadWord(s.mem, s.Sp() - 16) == v
    ensures Run([Mv(S0, rs1), Lw(S1, SP, VAR_A)], s) == s.Set(S0, s.Get(rs1)).Set(S1, v)
  {
    hide Run, LoadWord, Exec;
    Run2(Mv(S0, rs1), Lw(S1, SP, VAR_A), s);
    MoveRuns(rs1, s);
    LoadRuns(s.Set(S0, s.Get(rs1)), v);
  }

  lemma SltSaveRuns(rs1: Reg, rs2: Reg, s: State)
    requires 28 <= s.Sp()
    ensures Run(SltSave(rs1, rs2), s) == State(s.Set(S0, s.Get(rs1)).Set(S1, s.Get(rs2)).regs, Saved(s, rs2))
  {
    hide Run, Held, Same, LoadWord, Saved;
    var saves, moves := [Sw(S0, SP, SAVE1), Sw(S1, SP, SAVE2), Sw(rs2, SP, VAR_A)], [Mv(S0, rs1), Lw(S1, SP, VAR_A)];
    assert SltSave(rs1, rs2) == saves + moves;
    RunAppend(saves, moves, s);
    SavesRun(rs2, s);
    SavedHolds(s, rs2);
    MovesRun(rs1, State(s.regs, Saved(s, rs2)), s.Get(rs2));
  }

  lemma SltSaveOk(rs1: Reg, rs2: Reg, s: State, t: Word)
    requires Ready(s, t)
    ensures var s' := Run(SltSave(rs1, rs2), s);
      && Ready(s', t)
      && s'.regs == s.regs[S0 := s.Get(rs1)][S1 := s.Get(rs2)]
      && Held(s'.mem, s.Sp() - 4, s.Get(S0)) && Held(s'.mem, s.Sp() - 8, s.Get(S1))
      && Same(s.mem, s'.mem, s.Sp() - 16, s.Sp())
  {
    hide Run, SltSave, Saved, Tables, Held, Same, Clean;
    SltSaveRuns(rs1, rs2, s);
    SavedHolds(s, rs2);
    SameClean(s.mem, Saved(s, rs2), s.Sp() - 16, s.Sp(), s.Sp(), t);
    StillReady(s, Run(SltSave(rs1, rs2), s), t);
  }

  lemma DoubleOk(rd: Reg, s: State)
    requires s.Get(rd) < 0x100
    ensures Run(Slli(rd, rd, 1), s) == s.Set(rd, 2 * s.Get(rd))
  {
    hide Run, Slli;
    SlliSmall(rd, rd, 1, s);
    assert Bits.Pow2(1) == 2;
  }

  /** gp = 4 * sign(a) + 2 * sign(b) + sign(a - b). */
  lemma SltIndexOk(t: Word, s: State)
    requires Ready(s, t)
    ensures var s' := Run(SltIndex(t), s);
      && s'.Get(GP) == 4 * Sign(s.Get(S0)) + 2 * Sign(s.Get(S1)) + Sign(Wrap(s.Get(S0) - s.Get(S1)))
      && Keeps(s.regs, s'.regs, {GP, TP})
      && Same(s.mem, s'.mem, s.Sp() - 28, s.Sp() - 8)
  {
    hide Wrap, Run, Tables, At, Msb, Slli, Sub;
    var p1, p2 := Msb(GP, S0) + Slli(GP, GP, 1), Msb(TP, S1) + [Add(GP, GP, TP)] + Slli(GP, GP, 1);
    var p3 := Sub(t, TP, S0, S1) + Msb(TP, TP) + [Add(GP, GP, TP)];
    RunAppend(p1 + p2, p3, s);
    RunAppend(p1, p2, s);
    RunAppend(Msb(GP, S0), Slli(GP, GP, 1), s);
    MsbOk(GP, S0, s);
    DoubleOk(GP, Run(Msb(GP, S0), s));
    var s1 := Run(p1, s);
    RunAppend(Msb(TP, S1) + [Add(GP, GP, TP)], Slli(GP, GP, 1), s1);
    RunAppend(Msb(TP, S1), [Add(GP, GP, TP)], s1);
    MsbOk(TP, S1, s1);
    var s1' := Run(Msb(TP, S1), s1);
    Run1(Add(GP, GP, TP), s1');
    DoubleOk(GP, Exec(Add(GP, GP, TP), s1'));
    var s2 := Run(p2, s1);
    StillReady(s, s2, t);
    RunAppend(Sub(t, TP, S0, S1) + Msb(TP, TP), [Add(GP, GP, TP)], s2);
    RunAppend(Sub(t, TP, S0, S1), Msb(TP, TP), s2);
    SubOk(t, TP, S0, S1, s2);
    var s3 := Run(Sub(t, TP, S0, S1), s2);
    MsbOk(TP, TP, s3);
    Run1(Add(GP, GP, TP), Run(Msb(TP, TP), s3));
  }

  lemma SltFetchOk(t: Word, table: nat, rd: Reg, s: State, v0: Word, v1: Word)
    requires Ready(s, t) && table in {SLT1, SLTU1}
    requires s.Get(GP) < 8 && Held(s.mem, s.Sp() - 4, v0) && Held(s.mem, s.Sp() - 8, v1)
    ensures var s' := Run(SltFetch(t, table, rd), s);
      && s'.mem == s.mem
      && (rd != X0 ==> s'.Get(rd) == SectionByte(table + s.Get(GP)))
      && (rd != S0 ==> s'.Get(S0) == v0) && (rd != S1 ==> s'.Get(S1) == v1)
      && Keeps(s.regs, s'.regs, {rd, TP, S0, S1})
  {
    hide Wrap, Run, Tables, At, La, LoadWord, SectionByte;
    RunAppend(La(TP, t + table), [Add(TP, TP, GP), Lw(S1, SP, SAVE2), Lw(S0, SP, SAVE1), Lbu(rd, TP, 0)], s);
    LaOk(TP, t + table, s);
    Run4(Add(TP, TP, GP), Lw(S1, SP, SAVE2), Lw(S0, SP, SAVE1), Lbu(rd, TP, 0), s.Set(TP, t + table));
    LoadHeld(s.mem, s.Sp() - 4, v0);
    LoadHeld(s.mem, s.Sp() - 8, v1);
    Fetch(s.mem, t, table + s.Get(GP));
  }

  /** The tables give both orders from the three signs. */
  lemma SignTables(a: Word, b: Word)
    ensures var i := 4 * Sign(a) + 2 * Sign(b) + Sign(Wrap(a - b));
      SectionByte(SLT1 + i) == Less(a, b) && SectionByte(SLTU1 + i) == LessU(a, b)
  {
    SignBytes(4 * Sign(a) + 2 * Sign(b) + Sign(Wrap(a - b)));
    hide Wrap, SectionByte;
  }

  lemma SignBytes(i: nat)
    requires i < 8
    ensures SectionByte(SLT1 + i) == [0, 1, 0, 0, 1, 1, 0, 1][i]
    ensures SectionByte(SLTU1 + i) == [0, 1, 1, 1, 0, 0, 0, 1][i]
  {
    hide LutByte;
  }

  lemma SltOk(t: Word, table: nat, rd: Reg, rs1: Reg, rs2: Reg, s: State)
    requires Ready(s, t) && table in {SLT1, SLTU1}
    ensures Does(s, Run(SltTemplate(t, table, rd, rs1, rs2), s), t, rd,
                 if table == SLT1 then Less(s.Get(rs1), s.Get(rs2)) else LessU(s.Get(rs1), s.Get(rs2)))
  {
    hide Wrap, Run, Tables, At, Held, Sign, Less, LessU, SltSave, SltIndex, SltFetch, SectionByte;
    RunAppend(SltSave(rs1, rs2) + SltIndex(t), SltFetch(t, table, rd), s);
    RunAppend(SltSave(rs1, rs2), SltIndex(t), s);
    SltSaveOk(rs1, rs2, s, t);
    var s1 := Run(SltSave(rs1, rs2), s);
    SltIndexOk(t, s1);
    var s2 := Run(SltIndex(t), s1);
    StillReady(s1, s2, t);
    StillHeld(s1.mem, s2.mem, s.Sp() - 4, s.Get(S0), s.Sp() - 28, s.Sp() - 8);
    StillHeld(s1.mem, s2.mem, s.Sp() - 8, s.Get(S1), s.Sp() - 28, s.Sp() - 8);
    SltFetchOk(t, table, rd, s2, s.Get(S0), s.Get(S1));
    SignTables(s.Get(rs1), s.Get(rs2));
  }
}
