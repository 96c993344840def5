/** Branch conditions against zero, and the branch itself. */
module RvBranch {
  import opened Basics
  import opened RvMachine
  import opened Lut
  import opened RvMacros
  import opened RvEffects
  import opened RvCompare
  import opened RvShift
  import Shifts

  /** Stores a code address in a scratch word. */
  lemma StoreAddressOk(a: Word, off: int, s: State)
    requires 28 <= s.Sp() && off in {VAR_A, VAR_B}
    ensures var s' := Run(La(GP, a) + [Sw(GP, SP, off)], s);
      && s'.regs == s.regs[GP := a]
      && Held(s'.mem, s.Sp() + off, a)
      && Same(s.mem, s'.mem, s.Sp() + off, s.Sp() + off + 4)
  {
    hide Wrap, Run, La, StoreWord, ByteOf, At;
    RunAppend(La(GP, a), [Sw(GP, SP, off)], s);
    LaOk(GP, a, s);
    Run1(Sw(GP, SP, off), s.Set(GP, a));
    StoreHolds(s.mem, s.Sp() + off, a);
  }

  /** tp = sp + 4 * tp. */
  lemma PointOk(s: State)
    requires 28 <= s.Sp() && s.Get(TP) <= 1
    ensures Run(Slli(TP, TP, 2) + [Add(TP, SP, TP)], s) == s.Set(TP, Wrap(s.Sp() + 4 * s.Get(TP)))
  {
    hide Wrap, Run, Slli;
    RunAppend(Slli(TP, TP, 2), [Add(TP, SP, TP)], s);
    SlliSmall(TP, TP, 2, s);
    FourTimes(s.Get(TP));
    Run1(Add(TP, SP, TP), s.Set(TP, 4 * s.Get(TP)));
    SetTwice(s, TP, 4 * s.Get(TP), Wrap(s.Sp() + 4 * s.Get(TP)));
  }

  /** The flag in tp chooses between the two addresses. */
  lemma BranchResolveOk(high: Word, low: Word, s: State)
    requires 28 <= s.Sp() && s.Get(TP) <= 1
    ensures var s' := Run(BranchResolve(high, low), s);
      && s'.Get(TP) == (if s.Get(TP) == 1 then high else low)
      && Keeps(s.regs, s'.regs, {GP, TP})
      && Same(s.mem, s'.mem, s.Sp() - 28, s.Sp())
  {
    hide Wrap, Run, Slli, La, At, ByteOf, LoadWord;
    var p0 := Slli(TP, TP, 2) + [Add(TP, SP, TP)];
    var p1, p2 := La(GP, high) + [Sw(GP, SP, VAR_A)], La(GP, low) + [Sw(GP, SP, VAR_B)];
    RunAppend(p0 + p1 + p2, [Lw(TP, TP, VAR_B)], s);
    RunAppend(p0 + p1, p2, s);
    RunAppend(p0, p1, s);
    PointOk(s);
    var s1 := Run(p0, s);
    StoreAddressOk(high, VAR_A, s1);
    var s2 := Run(p1, s1);
    StoreAddressOk(low, VAR_B, s2);
    var s3 := Run(p2, s2);
    LoadHeld(s3.mem, s.Sp() - 16, high);
    LoadHeld(s3.mem, s.Sp() - 20, low);
    Run1(Lw(TP, TP, VAR_B), s3);
    PointBack(s.Sp(), s.Get(TP));
  }

  /** Also when the sum wraps around the top of memory. */
  lemma PointBack(sp: int, k: int)
    requires 28 <= sp < WORDS && 0 <= k <= 1
    ensures Wrap(Wrap(sp + 4 * k) + VAR_B) == sp - 20 + 4 * k
  {
    hide Wrap;
  }

  function AtMostZero(v: Word): int
  {
    if Shifts.Signed(v) <= 0 then 1 else 0
  }

  lemma OrTable(i: int)
    requires 0 <= i <= 2
    ensures SectionByte(OR1 + i) == if i == 0 then 0 else 1
  {
  }

  lemma SignsOfPredecessor(v: Word)
    ensures AtMostZero(v) == if Sign(v) + Sign(Wrap(v - 1)) == 0 then 0 else 1
  {
    hide Wrap;
  }

  lemma NotPositiveOk(t: Word, rs: Reg, s: State)
    requires Ready(s, t) && rs !in {GP, TP}
    ensures var s' := Run(NotPositive(t, rs), s);
      && s'.Get(TP) == AtMostZero(s.Get(rs))
      && Keeps(s.regs, s'.regs, {GP, TP})
      && Same(s.mem, s'.mem, s.Sp() - 28, s.Sp())
  {
    hide Wrap, Run, Msb, La, At, Tables, SectionByte;
    var v := s.Get(rs);
    var p1 := Msb(GP, rs) + [Addi(TP, rs, -1)] + Msb(TP, TP) + [Add(GP, GP, TP)];
    var p2 := La(TP, t + OR1);
    RunAppend(p1 + p2, [Add(TP, GP, TP), Lbu(TP, TP, 0)], s);
    RunAppend(p1, p2, s);
    SignSumOk(rs, s);
    var s1 := Run(p1, s);
    StillReady(s, s1, t);
    LaOk(TP, t + OR1, s1);
    var s2 := Run(p2, s1);
    Run2(Add(TP, GP, TP), Lbu(TP, TP, 0), s2);
    Fetch(s1.mem, t, OR1 + s1.Get(GP));
    OrTable(s1.Get(GP));
    SignsOfPredecessor(v);
  }

  /** gp = sign(v) + sign(v - 1). */
  lemma SignSumOk(rs: Reg, s: State)
    requires 28 <= s.Sp() && rs !in {GP, TP}
    ensures var s' := Run(Msb(GP, rs) + [Addi(TP, rs, -1)] + Msb(TP, TP) + [Add(GP, GP, TP)], s);
      && s'.Get(GP) == Sign(s.Get(rs)) + Sign(Wrap(s.Get(rs) - 1))
      && Keeps(s.regs, s'.regs, {GP, TP})
      && Same(s.mem, s'.mem, s.Sp() - 24, s.Sp() - 20)
  {
    hide Wrap, Run, Msb, At;
    var p := Msb(GP, rs) + [Addi(TP, rs, -1)];
    RunAppend(p + Msb(TP, TP), [Add(GP, GP, TP)], s);
    RunAppend(p, Msb(TP, TP), s);
    RunAppend(Msb(GP, rs), [Addi(TP, rs, -1)], s);
    MsbOk(GP, rs, s);
    var s1 := Run(Msb(GP, rs), s);
    Run1(Addi(TP, rs, -1), s1);
    var s2 := Run([Addi(TP, rs, -1)], s1);
    MsbOk(TP, TP, s2);
    Run1(Add(GP, GP, TP), Run(Msb(TP, TP), s2));
  }
}
