/** Where three of the macros do not do what they stand for: result registers that the macro
    still relies on after writing them. */
module RvLimits {
  import opened Basics
  import opened RvMachine
  import opened Lut
  import opened RvMacros
  import opened RvEffects
  import opened RvCompare
  import opened RvEqual
  import opened RvAccess
  import Shifts

  // A state that any of them gets wrong: the tables, room on the stack, and fives.

  const TABLES: int := 0x10_0000
  const STACK: int := 0x80_0000
  const HIGH: int := 0xFFFF_FFE8

  function Fives(): (r: Regs)
    ensures forall k: Reg :: r[k] == if k == X0 then 0 else if k == SP then STACK else 5
  {
    seq(32, k => if k == X0 then 0 else if k == SP then STACK else 5)
  }

  /** The first `n` bytes of the section. */
  function Loaded(n: nat): Mem
    requires n <= SECTION
  {
    if n == 0 then map[] else Loaded(n - 1)[TABLES + (n - 1) := SectionByte(n - 1)]
  }

  lemma {:induction false} LoadedAt(n: nat, a: Word)
    requires n <= SECTION
    ensures At(Loaded(n), a) == if TABLES <= a < TABLES + n then SectionByte(a - TABLES) else 0
  {
    hide SectionByte;
    if n > 0 {
      LoadedAt(n - 1, a);
    }
  }

  /** One byte, at an address that is neither scratch nor in the section, is `b`. */
  function Bad(a: Word, b: Byte): State
  {
    State(Fives(), Loaded(SECTION)[a := b])
  }

  lemma BadReady(a: Word, b: Byte)
    requires !(TABLES <= a < TABLES + SECTION)
    ensures Ready(Bad(a, b), TABLES)
    ensures forall k: Word :: !(TABLES <= k < TABLES + SECTION) ==> At(Bad(a, b).mem, k) == if k == a then b else 0
  {
    hide SectionByte, Loaded;
    forall k: Word
      ensures At(Bad(a, b).mem, k) ==
        if k == a then b else if TABLES <= k < TABLES + SECTION then SectionByte(k - TABLES) else 0
    {
      LoadedAt(SECTION, k);
    }
  }

  // seqz restores s0 after it has written the result.

  ghost predicate SeqzWorks(rd: Reg, rs1: Reg)
  {
    forall t: Word, s: State :: Ready(s, t) ==>
      Does(s, Run(Seqz(t, rd, rs1), s), t, rd, Equal(s.Get(rs1), 0))
  }

  /** `seqz` is right exactly when its result goes neither to s0 nor to sp. */
  lemma SeqzExact(rd: Reg, rs1: Reg)
    ensures SeqzWorks(rd, rs1) <==> rd !in {SP, S0}
  {
    hide Run, Seqz, Ready, Does;
    if rd !in {SP, S0} {
      forall t: Word, s: State | Ready(s, t)
        ensures Does(s, Run(Seqz(t, rd, rs1), s), t, rd, Equal(s.Get(rs1), 0))
      {
        SeqzOk(t, rd, rs1, s);
      }
    } else if rd == S0 {
      SeqzLosesS0(rs1);
    } else {
      SeqzLosesSp(rs1);
    }
  }

  lemma SeqzLosesS0(rs1: Reg)
    ensures var s := Bad(HIGH, 0);
      Ready(s, TABLES) && !Does(s, Run(Seqz(TABLES, S0, rs1), s), TABLES, S0, Equal(s.Get(rs1), 0))
  {
    hide Run, Seqz, Tables, At;
    BadReady(HIGH, 0);
    SeqzRun(TABLES, S0, rs1, Bad(HIGH, 0));
  }

  /** With sp as the result, s0 is reloaded from below the result instead of the stack. */
  lemma SeqzLosesSp(rs1: Reg)
    ensures var s := Bad(HIGH, 0);
      Ready(s, TABLES) && !Does(s, Run(Seqz(TABLES, SP, rs1), s), TABLES, SP, Equal(s.Get(rs1), 0))
  {
    hide Run, ByteOf, Tables, At, SeqzCount, SeqzFetch, La, SectionByte, Wrap, LoadWord;
    var s := Bad(HIGH, 0);
    BadReady(HIGH, 0);
    var p1 := [Sw(rs1, SP, VAR_A), Sw(S0, SP, SAVE1)] + La(S0, Wrap(TABLES + CHECK_ZERO));
    RunAppend(p1 + SeqzCount(), SeqzFetch(TABLES, SP), s);
    RunAppend(p1, SeqzCount(), s);
    SeqzSaveOk(TABLES, rs1, s);
    var s1 := Run(p1, s);
    SeqzCountOk(TABLES, s.Get(rs1), s1);
    var s2 := Run(SeqzCount(), s1);
    StillReady(s1, s2, TABLES);
    FetchThroughSp(TABLES, s2);
    var v := if s2.Get(GP) == 0 then 1 else 0;
    NothingThere(s2.mem, v);
  }

  lemma FetchThroughSp(t: Word, s: State)
    requires Ready(s, t) && s.Get(GP) <= 4
    ensures var v := if s.Get(GP) == 0 then 1 else 0;
      Run(SeqzFetch(t, SP), s).Get(S0) == LoadWord(s.mem, Wrap(v - 4))
  {
    hide Wrap, Run, Tables, At, La, LoadWord, SectionByte;
    RunAppend(La(TP, Wrap(t + SAME_RESULT)), [Add(TP, TP, GP), Lbu(SP, TP, 0), Lw(S0, SP, SAVE1)], s);
    LaOk(TP, t + SAME_RESULT, s);
    Run3(Add(TP, TP, GP), Lbu(SP, TP, 0), Lw(S0, SP, SAVE1), s.Set(TP, t + SAME_RESULT));
    Fetch(s.mem, t, SAME_RESULT + s.Get(GP));
    AllSame(s.Get(GP));
  }

  lemma NothingThere(m: Mem, v: int)
    requires 0 <= v <= 1
    requires forall a: Word :: a == 0 || a >= WORDS - 4 ==> At(m, a) == 0
    ensures LoadWord(m, Wrap(v - 4)) == 0
  {
    hide At;
  }

  // sltz works through the scratch word after it has changed sp.

  ghost predicate SltzWorks(rd: Reg, rs1: Reg)
  {
    forall t: Word, s: State :: Ready(s, t) ==>
      Does(s, Run(Msb(rd, rs1), s), t, rd, if Shifts.Signed(s.regs[rs1]) < 0 then 1 else 0)
  }

  lemma SltzExact(rd: Reg, rs1: Reg)
    ensures SltzWorks(rd, rs1) <==> rd != SP
  {
    hide Run, Msb, Tables, At;
    if rd != SP {
      forall t: Word, s: State | Ready(s, t)
        ensures Does(s, Run(Msb(rd, rs1), s), t, rd, if Shifts.Signed(s.regs[rs1]) < 0 then 1 else 0)
      {
        MsbOk(rd, rs1, s);
      }
    } else {
      MsbWritesAfar(rs1);
      var s := Bad(HIGH, 7);
      assert !Clean(s.mem, Run(Msb(SP, rs1), s).mem, s.Sp(), TABLES);
    }
  }

  /** The second store goes to the far end of memory. */
  lemma MsbWritesAfar(rs1: Reg)
    ensures var s := Bad(HIGH, 7);
      Ready(s, TABLES) && At(s.mem, HIGH) == 7 && At(Run(Msb(SP, rs1), s).mem, HIGH) == 0
  {
    hide Wrap, ByteOf, Run, Shifts.Sll, Slli, At, Tables, StoreWord;
    var s := Bad(HIGH, 7);
    BadReady(HIGH, 7);
    RunAppend(GetByte(SP, rs1, 3) + Slli(SP, SP, 1), GetByte(SP, SP, 1), s);
    RunAppend(GetByte(SP, rs1, 3), Slli(SP, SP, 1), s);
    GetByteOk(SP, rs1, 3, s);
    NoTopByte(s.Get(rs1));
    var s1 := Run(GetByte(SP, rs1, 3), s);
    SlliSmall(SP, SP, 1, s1);
    ZeroShifted();
    var s2 := Run(Slli(SP, SP, 1), s1);
    Run2(Sw(SP, SP, VAR_C), Lbu(SP, SP, VAR_C + 1), s2);
    StoreHolds(s2.mem, HIGH, 0);
    ZeroBytes();
  }

  lemma NoTopByte(v: Word)
    requires v < 0x100_0000
    ensures ByteOf(v, 3) == 0
  {
  }

  lemma ZeroShifted()
    ensures Shifts.Sll(0, 1) == 0
  {
  }

  // lb places the byte it fetched through sp.

  ghost predicate LbWorks(rd: Reg)
  {
    forall t: Word, base: Reg, off: int, s: State ::
      Ready(s, t) && ClearOfScratch(Wrap(s.Get(base) + off), s.Sp()) ==>
        Does(s, Run(Lb(t, rd, base, off), s), t, rd, SignExtend8(At(s.mem, Wrap(s.Get(base) + off))))
  }

  lemma LbExact(rd: Reg)
    requires rd != TP
    ensures LbWorks(rd) <==> rd != SP
  {
    hide Run, Lb, Ready, Does, At, Wrap;
    if rd != SP {
      forall t: Word, base: Reg, off: int, s: State | Ready(s, t) && ClearOfScratch(Wrap(s.Get(base) + off), s.Sp())
        ensures Does(s, Run(Lb(t, rd, base, off), s), t, rd, SignExtend8(At(s.mem, Wrap(s.Get(base) + off))))
      {
        LbOk(t, rd, base, off, s);
      }
    } else {
      LbLosesSp();
    }
  }

  predicate Storeless(code: seq<Base>)
  {
    forall b :: b in code ==> !b.Sw? && !b.Sb?
  }

  lemma {:induction false} StorelessKeeps(code: seq<Base>, s: State)
    requires Storeless(code)
    ensures Run(code, s).mem == s.mem
  {
    if code != [] {
      assert code[0] in code;
      StorelessKeeps(code[1..], Exec(code[0], s));
    }
  }

  const AFAR: int := 0xFFFF_FFFA

  /** A 7 fetched into sp is stored at sp - 13. */
  lemma LbLosesSp()
    ensures var s := Bad(5, 7);
      && Ready(s, TABLES) && ClearOfScratch(Wrap(s.Get(S0) + 0), s.Sp())
      && !Does(s, Run(Lb(TABLES, SP, S0, 0), s), TABLES, SP, SignExtend8(At(s.mem, Wrap(s.Get(S0) + 0))))
  {
    hide Run, At, Tables, SignExtend8, ShiftRightImm, Wrap;
    var s := Bad(5, 7);
    BadReady(5, 7);
    var p := [Sw(X0, SP, VAR_A), Lbu(SP, S0, 0), Sb(SP, SP, VAR_A + 3), Lw(SP, SP, VAR_A)];
    RunAppend(p, ShiftRightImm(TABLES, SP, SP, 24, true), s);
    PlacedAfar(s);
    SignByTable(Run(p, s));
    assert !Clean(s.mem, Run(Lb(TABLES, SP, S0, 0), s).mem, s.Sp(), TABLES);
  }

  lemma PlacedAfar(s: State)
    requires s == Bad(5, 7)
    ensures At(s.mem, AFAR) == 0
    ensures var s' := Run([Sw(X0, SP, VAR_A), Lbu(SP, S0, 0), Sb(SP, SP, VAR_A + 3), Lw(SP, SP, VAR_A)], s);
      At(s'.mem, AFAR) == 7 && s'.Sp() == 0x700_0000
  {
    hide Run, ByteOf, StoreWord, StoreByte, Tables, Wrap, At, LoadWord;
    BadReady(5, 7);
    Run4(Sw(X0, SP, VAR_A), Lbu(SP, S0, 0), Sb(SP, SP, VAR_A + 3), Lw(SP, SP, VAR_A), s);
    var m := StoreWord(s.mem, STACK - 16, 0);
    StoreHolds(s.mem, STACK - 16, 0);
    StoreByteAt(m, AFAR, 7);
    LowByte(7);
    SevenOnTop(StoreByte(m, AFAR, 7));
  }

  lemma SevenOnTop(m: Mem)
    requires At(m, AFAR) == 7 && At(m, AFAR - 1) == 0 && At(m, AFAR - 2) == 0 && At(m, AFAR - 3) == 0
    ensures LoadWord(m, AFAR - 3) == 0x700_0000
  {
    hide At;
  }

  /** The sign extension that follows stores elsewhere. */
  lemma SignByTable(s: State)
    requires s.Sp() == 0x700_0000
    ensures At(Run(ShiftRightImm(TABLES, SP, SP, 24, true), s).mem, AFAR) == At(s.mem, AFAR)
  {
    hide Run, ByteOf, StoreWord, At, Wrap;
    var rest := La(TP, Wrap(TABLES + LUT + Sra8.Offset() + 24 * 0x400))
      + ([Lbu(SP, SP, VAR_A + 3)] + Slli(SP, SP, 2) + [Add(TP, TP, SP), Lw(SP, TP, 0)]);
    assert ShiftRightImm(TABLES, SP, SP, 24, true) == [Sw(SP, SP, VAR_A)] + rest;
    RunAppend([Sw(SP, SP, VAR_A)], rest, s);
    Run1(Sw(SP, SP, VAR_A), s);
    StoreHolds(s.mem, 0x700_0000 - 16, s.Sp());
    StorelessKeeps(rest, Run([Sw(SP, SP, VAR_A)], s));
  }
}
