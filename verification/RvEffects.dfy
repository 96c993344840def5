/** What the building blocks of the macros do to registers and memory. */
module RvEffects {
  import opened Basics
  import opened Bits
  import opened RvMachine
  import opened Lut
  import opened RvMacros

  /** Memory is the same outside the addresses from `lo` up to `hi`. */
  predicate Same(m: Mem, m': Mem, lo: int, hi: int)
  {
    forall a: Word :: !(lo <= a < hi) ==> At(m', a) == At(m, a)
  }

  predicate Keeps(r: Regs, r': Regs, changed: set<Reg>)
  {
    forall k: Reg :: k !in changed ==> r'[k] == r[k]
  }

  /** The four bytes from `a` hold the word `v`. */
  predicate Held(m: Mem, a: int, v: Word)
  {
    && 0 <= a < WORDS - 3
    && At(m, a) == ByteOf(v, 0) && At(m, a + 1) == ByteOf(v, 1)
    && At(m, a + 2) == ByteOf(v, 2) && At(m, a + 3) == ByteOf(v, 3)
  }

  /** Room for the scratch words, clear of the section. */
  predicate Room(s: State, t: Word)
  {
    && t + SECTION <= WORDS
    && 28 <= s.Sp()
    && (s.Sp() <= t || t + SECTION <= s.Sp() - 28)
  }

  /** The section at `t` holds the tables; its first 256 bytes may be anything. */
  predicate Tables(m: Mem, t: Word)
    requires t + SECTION <= WORDS
  {
    forall k :: SAME_RESULT <= k < SECTION ==> At(m, t + k) == SectionByte(k)
  }

  predicate Ready(s: State, t: Word)
  {
    Room(s, t) && Tables(s.mem, t)
  }

  /** Memory is the same but for the scratch words and the array that `seq` writes. */
  predicate Clean(m: Mem, m': Mem, sp: int, t: Word)
  {
    forall a: Word :: !(sp - 28 <= a < sp) && !(t <= a < t + SAME_RESULT) ==> At(m', a) == At(m, a)
  }

  lemma Fetch(m: Mem, t: Word, k: int)
    requires t + SECTION <= WORDS && Tables(m, t) && SAME_RESULT <= k < SECTION
    ensures At(m, t + k) == SectionByte(k)
  {
    hide SectionByte;
  }

  lemma StillReady(s: State, s': State, t: Word)
    requires Ready(s, t) && s'.Sp() == s.Sp() && Clean(s.mem, s'.mem, s.Sp(), t)
    ensures Ready(s', t)
  {
    hide SectionByte, At;
  }

  lemma SameClean(m: Mem, m': Mem, lo: int, hi: int, sp: int, t: Word)
    requires Same(m, m', lo, hi) && sp - 28 <= lo && hi <= sp
    ensures Clean(m, m', sp, t)
  {
    hide At;
  }

  lemma CleanTwice(m: Mem, m': Mem, m'': Mem, sp: int, t: Word)
    requires Clean(m, m', sp, t) && Clean(m', m'', sp, t)
    ensures Clean(m, m'', sp, t)
  {
    hide At;
  }

  lemma SameTwice(m: Mem, m': Mem, m'': Mem, lo: int, hi: int, lo': int, hi': int)
    requires Same(m, m', lo, hi) && Same(m', m'', lo', hi')
    ensures Same(m, m'', if lo < lo' then lo else lo', if hi < hi' then hi' else hi)
  {
    hide At;
  }

  lemma LoadHeld(m: Mem, a: int, v: Word)
    requires Held(m, a, v)
    ensures LoadWord(m, a) == v
  {
    hide ByteOf, Pack;
    PackBytes(v);
  }

  lemma StoreHolds(m: Mem, a: Word, v: Word)
    requires a < WORDS - 3
    ensures Held(StoreWord(m, a, v), a, v)
    ensures Same(m, StoreWord(m, a, v), a, a + 4)
  {
    hide ByteOf, Pack;
  }

  lemma StoreByteAt(m: Mem, a: Word, v: Word)
    ensures At(StoreByte(m, a, v), a) == ByteOf(v, 0)
    ensures forall a': Word :: a' != a ==> At(StoreByte(m, a, v), a') == At(m, a')
  {
    hide ByteOf;
  }

  lemma ZeroBytes()
    ensures forall k :: 0 <= k < 4 ==> ByteOf(0, k) == 0
  {
  }

  lemma StillHeld(m: Mem, m': Mem, a: int, v: Word, lo: int, hi: int)
    requires Held(m, a, v) && Same(m, m', lo, hi) && (a + 4 <= lo || hi <= a)
    ensures Held(m', a, v)
  {
    hide At, ByteOf;
  }

  lemma LaOk(r: Reg, a: Word, s: State)
    ensures Run(La(r, a), s) == s.Set(r, a)
  {
    var hi, lo := (a + 0x800) / 0x1000 % 0x10_0000, (a + 0x800) % 0x1000 - 0x800;
    Run2(Lui(r, hi), Addi(r, r, lo), s);
    HiLo(a);
  }

  lemma HiLo(a: Word)
    ensures Wrap(Wrap(0x1000 * ((a + 0x800) / 0x1000 % 0x10_0000)) + ((a + 0x800) % 0x1000 - 0x800)) == a
  {
    var q := (a + 0x800) / 0x1000;
    assert q <= 0x10_0000;
  }

  lemma GetByteOk(rd: Reg, rs1: Reg, b: int, s: State)
    requires 28 <= s.Sp() && 0 <= b < 4
    ensures var s' := Run(GetByte(rd, rs1, b), s);
      && s'.regs == SetReg(s.regs, rd, ByteOf(s.Get(rs1), b))
      && Same(s.mem, s'.mem, s.Sp() - 24, s.Sp() - 20)
  {
    hide Wrap, ByteOf, Run;
    Run2(Sw(rs1, SP, VAR_C), Lbu(rd, SP, VAR_C + b), s);
    StoreHolds(s.mem, s.Sp() - 24, s.Get(rs1));
  }

  lemma {:induction false} RepeatOk(rd: Reg, n: nat, s: State)
    ensures Run(Repeat(Add(rd, rd, rd), n), s) == s.Set(rd, Shifts.Sll(s.Get(rd), n))
  {
    hide Wrap, Shifts.Sll;
    SllZero(s.Get(rd));
    if n > 0 {
      RunCons(Add(rd, rd, rd), Repeat(Add(rd, rd, rd), n - 1), s);
      RepeatOk(rd, n - 1, Exec(Add(rd, rd, rd), s));
      SllStep(s.Get(rd), n);
    }
  }

  lemma SllZero(v: Word)
    ensures Shifts.Sll(v, 0) == v
  {
  }

  lemma SllStep(v: Word, n: nat)
    requires n > 0
    ensures Shifts.Sll(Wrap(v + v), n - 1) == Shifts.Sll(v, n)
  {
    var p := Pow2(n - 1);
    assert v * (2 * p) == (v + v) * p;
    if v + v >= WORDS {
      assert (v + v - WORDS) * p == (v + v) * p - WORDS * p;
      Shifts.WrapTimes((v + v) * p, p);
    }
  }

  /** Shifting by doubling. */
  lemma SlliSmall(rd: Reg, rs1: Reg, imm: nat, s: State)
    requires 0 < imm < 16
    ensures Run(Slli(rd, rs1, imm), s) == s.Set(rd, Shifts.Sll(s.Get(rs1), imm))
  {
    hide Wrap, Shifts.Sll, Run;
    RunCons(Add(rd, rs1, rs1), Repeat(Add(rd, rd, rd), imm - 1), s);
    RepeatOk(rd, imm - 1, Exec(Add(rd, rs1, rs1), s));
    SllStep(s.Get(rs1), imm);
  }

  lemma MsbOk(rd: Reg, rs1: Reg, s: State)
    requires 28 <= s.Sp() && rd != SP
    ensures var s' := Run(Msb(rd, rs1), s);
      && s'.regs == SetReg(s.regs, rd, s.Get(rs1) / 0x8000_0000)
      && Same(s.mem, s'.mem, s.Sp() - 24, s.Sp() - 20)
  {
    hide Wrap, ByteOf, Run, Shifts.Sll, Slli;
    RunAppend(GetByte(rd, rs1, 3) + Slli(rd, rd, 1), GetByte(rd, rd, 1), s);
    RunAppend(GetByte(rd, rs1, 3), Slli(rd, rd, 1), s);
    GetByteOk(rd, rs1, 3, s);
    var s1 := Run(GetByte(rd, rs1, 3), s);
    SlliSmall(rd, rd, 1, s1);
    var s2 := Run(Slli(rd, rd, 1), s1);
    GetByteOk(rd, rd, 1, s2);
    TopBit(s.Get(rs1));
  }

  lemma TopBit(v: Word)
    ensures ByteOf(Shifts.Sll(ByteOf(v, 3), 1), 1) == v / 0x8000_0000
  {
    assert Pow2(1) == 2;
  }

  lemma NotByteOk(t: Word, b: int, s: State)
    requires Ready(s, t) && 0 <= b < 4 && s.Get(TP) == t + LUT + Xor8.Offset() + 0xff * 0x100
    ensures var s' := Run(NotByte(b), s);
      && Ready(s', t)
      && Keeps(s.regs, s'.regs, {GP})
      && Same(s.mem, s'.mem, s.Sp() - 28 + b, s.Sp() - 27 + b)
      && At(s'.mem, s.Sp() - 28 + b) == 0xff - At(s.mem, s.Sp() - 24 + b)
  {
    hide Wrap, ByteOf, Run, SectionByte, Tables;
    Run4(Lbu(GP, SP, VAR_C + b), Add(GP, GP, TP), Lbu(GP, GP, 0), Sb(GP, SP, VAR_D + b), s);
    var v := At(s.mem, s.Sp() - 24 + b);
    XorFull(v);
    Fetch(s.mem, t, LUT + Xor8.Offset() + 0xff * 0x100 + v);
    LowByte(0xff - v);
    StillReady(s, Run(NotByte(b), s), t);
  }

  lemma NotBytesOk(t: Word, v: Word, s: State)
    requires Ready(s, t) && s.Get(TP) == t + LUT + Xor8.Offset() + 0xff * 0x100
    requires Held(s.mem, s.Sp() - 24, v)
    ensures var s' := Run(NotByte(3) + NotByte(2) + NotByte(1) + NotByte(0), s);
      && Keeps(s.regs, s'.regs, {GP})
      && Same(s.mem, s'.mem, s.Sp() - 28, s.Sp() - 24)
      && Held(s'.mem, s.Sp() - 28, WORDS - 1 - v)
  {
    hide Run, ByteOf, NotByte, Tables, At;
    RunAppend(NotByte(3) + NotByte(2) + NotByte(1), NotByte(0), s);
    RunAppend(NotByte(3) + NotByte(2), NotByte(1), s);
    RunAppend(NotByte(3), NotByte(2), s);
    var s3 := Run(NotByte(3), s);
    var s2 := Run(NotByte(2), s3);
    var s1 := Run(NotByte(1), s2);
    NotByteOk(t, 3, s);
    NotByteOk(t, 2, s3);
    NotByteOk(t, 1, s2);
    NotByteOk(t, 0, s1);
    ComplementBytes(v);
  }

  lemma ComplementPack(v: Word)
    ensures Pack(0xff - ByteOf(v, 0), 0xff - ByteOf(v, 1), 0xff - ByteOf(v, 2), 0xff - ByteOf(v, 3)) == WORDS - 1 - v
  {
    hide ByteOf;
    PackBytes(v);
  }

  lemma ComplementBytes(v: Word)
    ensures forall k :: 0 <= k < 4 ==> ByteOf(WORDS - 1 - v, k) == 0xff - ByteOf(v, k)
  {
    hide ByteOf, Pack;
    ComplementPack(v);
    BytesOfPack(0xff - ByteOf(v, 0), 0xff - ByteOf(v, 1), 0xff - ByteOf(v, 2), 0xff - ByteOf(v, 3));
  }

  lemma NotSaveOk(t: Word, rs1: Reg, s: State)
    requires Ready(s, t)
    ensures var a := t + LUT + Xor8.Offset() + 0xff * 0x100;
      var s' := Run([Sw(GP, SP, SAVE3), Sw(rs1, SP, VAR_C)] + La(TP, a), s);
      && Ready(s', t)
      && s'.regs == s.regs[TP := a]
      && Held(s'.mem, s.Sp() - 12, s.Get(GP)) && Held(s'.mem, s.Sp() - 24, s.Get(rs1))
      && Same(s.mem, s'.mem, s.Sp() - 24, s.Sp() - 8)
  {
    hide Wrap, Run, ByteOf, Tables, At, La, StoreWord;
    var a := t + LUT + Xor8.Offset() + 0xff * 0x100;
    RunAppend([Sw(GP, SP, SAVE3), Sw(rs1, SP, VAR_C)], La(TP, a), s);
    Run2(Sw(GP, SP, SAVE3), Sw(rs1, SP, VAR_C), s);
    StoreHolds(s.mem, s.Sp() - 12, s.Get(GP));
    StoreHolds(StoreWord(s.mem, s.Sp() - 12, s.Get(GP)), s.Sp() - 24, s.Get(rs1));
    var s1 := Run([Sw(GP, SP, SAVE3), Sw(rs1, SP, VAR_C)], s);
    LaOk(TP, a, s1);
    StillReady(s, Run(La(TP, a), s1), t);
  }

  lemma NotRestoreOk(rd: Reg, v: Word, w: Word, s: State)
    requires 28 <= s.Sp() && Held(s.mem, s.Sp() - 12, v) && Held(s.mem, s.Sp() - 28, w)
    ensures Run([Lw(GP, SP, SAVE3), Lw(rd, SP, VAR_D)], s) == s.Set(GP, v).Set(rd, w)
  {
    hide Wrap, Run, At, LoadWord;
    Run2(Lw(GP, SP, SAVE3), Lw(rd, SP, VAR_D), s);
    LoadHeld(s.mem, s.Sp() - 12, v);
    LoadHeld(s.mem, s.Sp() - 28, w);
  }

  lemma NotOk(t: Word, rd: Reg, rs1: Reg, s: State)
    requires Ready(s, t)
    ensures var s' := Run(Not(t, rd, rs1), s);
      && (rd != X0 ==> s'.Get(rd) == WORDS - 1 - s.Get(rs1))
      && Keeps(s.regs, s'.regs, {rd, TP})
      && Same(s.mem, s'.mem, s.Sp() - 28, s.Sp() - 8)
  {
    hide Wrap, Run, NotByte, Tables, At, La, ByteOf;
    var p1 := [Sw(GP, SP, SAVE3), Sw(rs1, SP, VAR_C)] + La(TP, t + LUT + Xor8.Offset() + 0xff * 0x100);
    var p2 := NotByte(3) + NotByte(2) + NotByte(1) + NotByte(0);
    var p3 := [Lw(GP, SP, SAVE3), Lw(rd, SP, VAR_D)];
    RunAppend(p1 + p2, p3, s);
    RunAppend(p1, p2, s);
    NotSaveOk(t, rs1, s);
    var s1 := Run(p1, s);
    NotBytesOk(t, s.Get(rs1), s1);
    NotRestoreOk(rd, s.Get(GP), WORDS - 1 - s.Get(rs1), Run(p2, s1));
  }

  lemma SubOk(t: Word, rd: Reg, rs1: Reg, rs2: Reg, s: State)
    requires Ready(s, t) && rs1 != TP
    ensures var s' := Run(Sub(t, rd, rs1, rs2), s);
      && (rd != X0 ==> s'.Get(rd) == Wrap(s.Get(rs1) - s.Get(rs2)))
      && Keeps(s.regs, s'.regs, {rd, TP})
      && Same(s.mem, s'.mem, s.Sp() - 28, s.Sp() - 8)
  {
    hide Wrap, Run, Not, Tables, At;
    RunAppend(Not(t, TP, rs2), [Add(rd, rs1, TP), Addi(rd, rd, 1)], s);
    NotOk(t, TP, rs2, s);
    Run2(Add(rd, rs1, TP), Addi(rd, rd, 1), Run(Not(t, TP, rs2), s));
  }

  lemma LowByte(v: Byte)
    ensures ByteOf(v, 0) == v
  {
  }

  lemma XorFull(v: Byte)
    ensures SectionByte(LUT + Xor8.Offset() + 0xff * 0x100 + v) == 0xff - v
  {
    hide LutByte, Bits.BitOp, Low;
    LutEntry(Xor8, 0xff, v, 0);
    Shifts.Pow2Eight();
    XorOnes(8, v);
    Shifts.LowSmall(v, 8);
    LowByte(0xff - v);
  }
}
