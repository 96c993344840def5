/** Which macro replaces which instruction, and that it has the same effect. */
module RvExpand {
  import opened Basics
  import opened RvMachine
  import opened Lut
  import opened RvMacros
  import opened RvEffects
  import opened RvCompare
  import opened RvEqual
  import opened RvLogic
  import opened RvShift
  import opened RvAccess
  import opened RvBranch
  import opened Rv32
  import Bits
  import Shifts

  predicate Free(r: Reg)
  {
    r != GP && r != TP
  }

  /** What the macros demand of the program: tp and gp are not used; the assembler stops
      on a bitwise operation with sp; and a result register must not be one on which the
      macro still relies after writing it. */
  predicate Legal(i: Instr)
  {
    match i
    case RType(op, rd, rs1, rs2) =>
      Free(rd) && Free(rs1) && Free(rs2) && (op in {AND, OR, XOR} ==> rd != SP && rs1 != SP && rs2 != SP)
    case IType(op, rd, rs1, imm) =>
      && Free(rd) && Free(rs1) && op != SUB
      && (op in {AND, OR, XOR} ==> rd != SP && rs1 != SP)
      && (if op in {SLL, SRL, SRA} then 0 <= imm < 32 else -0x800 <= imm < 0x800)
    case Unary(un, rd, rs1) =>
      Free(rd) && Free(rs1) && (un == SEQZ ==> rd != SP && rd != S0) && (un == SLTZ ==> rd != SP)
    case LoadUpper(rd, hi) => Free(rd) && 0 <= hi < 0x10_0000
    case LoadAddress(rd, _) => Free(rd)
    case Load(width, rd, base, off) =>
      && Free(rd) && Free(base) && (width == B ==> rd != SP)
      && -0x800 <= off && off + (if width in {H, HU} then 1 else 0) < 0x800
    case Store(width, rs, base, off) =>
      && width in {B, H, W} && Free(rs) && Free(base)
      && -0x800 <= off && off + (if width == H then 1 else 0) < 0x800
    case Branch(_, rs1, rs2, _) => Free(rs1) && Free(rs2)
    case Jump(rd, _) => Free(rd)
    case JumpReg(rd, rs1, off) => Free(rd) && Free(rs1) && -0x800 <= off < 0x800
    case TailCall(_) => true
  }

  function ExpandAlu(t: Word, op: Alu, rd: Reg, rs1: Reg, rs2: Reg): (code: seq<Base>)
  {
    match op
    case ADD => [Add(rd, rs1, rs2)]
    case SUB => RvMacros.Sub(t, rd, rs1, rs2)
    case SLT => SltTemplate(t, SLT1, rd, rs1, rs2)
    case SLTU => SltTemplate(t, SLTU1, rd, rs1, rs2)
    case AND => Logic(t, And8, rd, rs1, rs2)
    case OR => Logic(t, Or8, rd, rs1, rs2)
    case XOR => Logic(t, Xor8, rd, rs1, rs2)
    case SLL => RvMacros.Sll(t, rd, rs1, rs2)
    case SRL => ShiftRight(t, rd, rs1, rs2, false)
    case SRA => ShiftRight(t, rd, rs1, rs2, true)
  }

  function ExpandImm(t: Word, op: Alu, rd: Reg, rs1: Reg, imm: int): (code: seq<Base>)
  {
    match op
    case ADD => [Addi(rd, rs1, imm)]
    case SLL => Slli(rd, rs1, Amount(imm))
    case SRL => ShiftRightImm(t, rd, rs1, Amount(imm), false)
    case SRA => ShiftRightImm(t, rd, rs1, Amount(imm), true)
    case _ => [Addi(TP, X0, imm)] + ExpandAlu(t, op, rd, rs1, TP)
  }

  /** The shift amount of an instruction is five bits wide. */
  function Amount(imm: int): (n: nat)
    ensures n < 32 && (0 <= imm < 32 ==> n == imm)
  {
    imm % 32
  }

  function ExpandUnary(t: Word, un: Pseudo, rd: Reg, rs1: Reg): (code: seq<Base>)
  {
    match un
    case NOT => RvMacros.Not(t, rd, rs1)
    case NEG => RvMacros.Sub(t, rd, X0, rs1)
    case SEQZ => Seqz(t, rd, rs1)
    case SNEZ => SltTemplate(t, SLTU1, rd, X0, rs1)
    case SLTZ => Msb(rd, rs1)
    case SGTZ => SltTemplate(t, SLT1, rd, X0, rs1)
  }

  function ExpandLoad(t: Word, width: Width, rd: Reg, base: Reg, off: int): (code: seq<Base>)
  {
    match width
    case B => Lb(t, rd, base, off)
    case BU => [Lbu(rd, base, off)]
    case H => Lh(t, rd, base, off)
    case HU => Lhu(rd, base, off)
    case W => [Lw(rd, base, off)]
  }

  function ExpandStore(width: Width, rs: Reg, base: Reg, off: int): (code: seq<Base>)
  {
    match width
    case B | BU => [Sb(rs, base, off)]
    case H | HU => Sh(rs, base, off)
    case W => [Sw(rs, base, off)]
  }

  /** The code that leaves in tp the flag that decides a branch ... */
  function Flag(t: Word, cond: Cond, rs1: Reg, rs2: Reg): (code: seq<Base>)
  {
    match cond
    case EQ | NE => if rs2 == X0 then Seqz(t, TP, rs1) else if rs1 == X0 then Seqz(t, TP, rs2) else Seq(t, TP, rs1, rs2)
    case LT =>
      if rs2 == X0 then Msb(TP, rs1)
      else if rs1 == X0 then NotPositive(t, rs2)
      else SltTemplate(t, SLT1, TP, rs1, rs2)
    case GE => if rs1 == X0 then NotPositive(t, rs2) else SltTemplate(t, SLT1, TP, rs1, rs2)
    case LTU | GEU => SltTemplate(t, SLTU1, TP, rs1, rs2)
  }

  /** ... and whether the flag, when set, selects the target. */
  predicate FlagTakes(cond: Cond, rs1: Reg, rs2: Reg)
  {
    match cond
    case EQ | LTU => true
    case NE | GEU => false
    case LT => rs2 == X0 || rs1 != X0
    case GE => rs1 == X0
  }

  /** Fetches into tp where to go, by the flag there. */
  function Choice(takes: bool, next: Word, dest: Word): (code: seq<Base>)
  {
    if takes then BranchResolve(dest, next) else BranchResolve(next, dest)
  }

  /** The straight-line part; `next` and `dest` are the addresses of the following
      instruction and of the jump target. */
  function Body(t: Word, i: Instr, next: Word, dest: Word): (code: seq<Base>)
  {
    match i
    case RType(op, rd, rs1, rs2) => ExpandAlu(t, op, rd, rs1, rs2)
    case IType(op, rd, rs1, imm) => ExpandImm(t, op, rd, rs1, imm)
    case Unary(un, rd, rs1) => ExpandUnary(t, un, rd, rs1)
    case LoadUpper(rd, hi) => [Lui(rd, hi)]
    case LoadAddress(rd, symbol) => La(rd, symbol)
    case Load(width, rd, base, off) => ExpandLoad(t, width, rd, base, off)
    case Store(width, rs, base, off) => ExpandStore(width, rs, base, off)
    case Branch(cond, rs1, rs2, _) => Flag(t, cond, rs1, rs2) + Choice(FlagTakes(cond, rs1, rs2), next, dest)
    case Jump(rd, _) => La(if rd == X0 then TP else rd, dest)
    case JumpReg(_, _, _) => []
    case TailCall(_) => La(TP, dest)
  }

  /** The jump that ends an expansion, and for a tail call the code it leaves unreached. */
  function Tail(i: Instr, dest: Word): (code: seq<Base>)
  {
    match i
    case Branch(_, _, _, _) => [Jalr(X0, TP, 0)]
    case Jump(rd, _) => if rd == X0 then [Jalr(TP, TP, 0)] else [Jalr(rd, rd, 0)]
    case JumpReg(rd, rs1, off) => [Jalr(rd, rs1, off)]
    case TailCall(_) => [Jalr(X0, TP, 0)] + La(RA, dest) + [Jalr(RA, RA, 0)]
    case _ => []
  }

  /** The whole expansion; the assembler can encode every instruction in it. */
  function Expand(t: Word, i: Instr, next: Word, dest: Word): (code: seq<Base>)
  {
    Body(t, i, next, dest) + Tail(i, dest)
  }

  /** The addresses an instruction reads are neither scratch nor the array. */
  predicate ReadsClear(i: Instr, s: State, t: Word)
  {
    i.Load? ==> forall a :: a in Touched(i.width, s.Get(i.base) + i.off) ==> ClearOfScratch(a, s.Sp()) && OutsideArray(a, t)
  }

  /** Registers agree except tp and gp; memory agrees except the scratch words and the array. */
  predicate Effect(u: State, s': State, sp: int, t: Word)
  {
    Keeps(u.regs, s'.regs, {GP, TP}) && Clean(u.mem, s'.mem, sp, t)
  }

  lemma DoesEffect(s: State, s': State, t: Word, rd: Reg, v: Word)
    requires Does(s, s', t, rd, v) && Free(rd)
    ensures Effect(s.Set(rd, v), s', s.Sp(), t)
  {
    hide At;
    var u := s.Set(rd, v);
    forall k: Reg | k !in {GP, TP}
      ensures s'.regs[k] == u.regs[k]
    {
      if k == rd {
      } else {
        assert s'.regs[k] == s.regs[k];
      }
    }
  }

  lemma AddDoes(t: Word, rd: Reg, rs1: Reg, rs2: Reg, s: State)
    ensures Does(s, Run([Add(rd, rs1, rs2)], s), t, rd, Wrap(s.Get(rs1) + s.Get(rs2)))
  {
    hide Wrap, Run, At;
    Run1(Add(rd, rs1, rs2), s);
  }

  lemma SubDoes(t: Word, rd: Reg, rs1: Reg, rs2: Reg, s: State)
    requires Ready(s, t) && Free(rd) && Free(rs1)
    ensures Does(s, Run(RvMacros.Sub(t, rd, rs1, rs2), s), t, rd, Wrap(s.Get(rs1) - s.Get(rs2)))
  {
    hide Wrap, Run, At, Tables, RvMacros.Sub;
    SubOk(t, rd, rs1, rs2, s);
  }

  lemma AluOk(t: Word, op: Alu, rd: Reg, rs1: Reg, rs2: Reg, s: State)
    requires Ready(s, t) && Free(rd) && Free(rs1) && (op in {AND, OR, XOR} ==> rd != SP)
    ensures Does(s, Run(ExpandAlu(t, op, rd, rs1, rs2), s), t, rd, AluValue(op, s.regs[rs1], s.regs[rs2]))
  {
    hide Wrap, Run, At, Tables, Does, Less, LessU, Bitwise, Shifts.Sll, Shifts.Srl, Shifts.Sra, RvMacros.Sub, SltTemplate,
      Logic, RvMacros.Sll, ShiftRight;
    match op
    case ADD => AddDoes(t, rd, rs1, rs2, s);
    case SUB => SubDoes(t, rd, rs1, rs2, s);
    case SLT => SltOk(t, SLT1, rd, rs1, rs2, s);
    case SLTU => SltOk(t, SLTU1, rd, rs1, rs2, s);
    case AND => LogicOk(t, And8, rd, rs1, rs2, s);
    case OR => LogicOk(t, Or8, rd, rs1, rs2, s);
    case XOR => LogicOk(t, Xor8, rd, rs1, rs2, s);
    case SLL => SllOk(t, rd, rs1, rs2, s);
    case SRL => ShiftRightOk(t, rd, rs1, rs2, false, s);
    case SRA => ShiftRightOk(t, rd, rs1, rs2, true, s);
  }

  lemma AddImm(a: Word, imm: int)
    requires -0x800 <= imm < 0x800
    ensures Wrap(a + imm) == AluValue(ADD, a, Wrap(imm))
  {
    hide Wrap;
  }

  lemma ImmOk(t: Word, op: Alu, rd: Reg, rs1: Reg, imm: int, s: State)
    requires Ready(s, t) && Legal(IType(op, rd, rs1, imm))
    ensures Does(s, Run(ExpandImm(t, op, rd, rs1, imm), s), t, rd, AluValue(op, s.regs[rs1], Wrap(imm)))
  {
    hide Wrap, Run, At, Tables, ExpandAlu, AluValue, ShiftedRight, Shifts.Sll;
    match op
    case ADD =>
      Run1(Addi(rd, rs1, imm), s);
      AddImm(s.regs[rs1], imm);
    case SLL =>
      SlliOk(t, rd, rs1, imm, s);
      ShiftImm(op, s.regs[rs1], imm);
    case SRL =>
      ShiftRightImmOk(t, rd, rs1, imm, false, s);
      ShiftImm(op, s.regs[rs1], imm);
    case SRA =>
      ShiftRightImmOk(t, rd, rs1, imm, true, s);
      ShiftImm(op, s.regs[rs1], imm);
    case _ => OtherImmOk(t, op, rd, rs1, imm, s);
  }

  /** The other operations take the constant from tp. */
  lemma OtherImmOk(t: Word, op: Alu, rd: Reg, rs1: Reg, imm: int, s: State)
    requires Ready(s, t) && Legal(IType(op, rd, rs1, imm)) && op !in {ADD, SLL, SRL, SRA}
    ensures Does(s, Run(ExpandImm(t, op, rd, rs1, imm), s), t, rd, AluValue(op, s.regs[rs1], Wrap(imm)))
  {
    hide Wrap, Run, At, Tables, ExpandAlu, AluValue;
    RunAppend([Addi(TP, X0, imm)], ExpandAlu(t, op, rd, rs1, TP), s);
    Run1(Addi(TP, X0, imm), s);
    var s1 := Run([Addi(TP, X0, imm)], s);
    StillReady(s, s1, t);
    AluOk(t, op, rd, rs1, TP, s1);
  }

  lemma ShiftImm(op: Alu, a: Word, imm: int)
    requires 0 <= imm < 32
    ensures op == SLL ==> AluValue(op, a, Wrap(imm)) == Shifts.Sll(a, imm)
    ensures op == SRL ==> AluValue(op, a, Wrap(imm)) == ShiftedRight(a, imm, false)
    ensures op == SRA ==> AluValue(op, a, Wrap(imm)) == ShiftedRight(a, imm, true)
  {
    hide Shifts.Sll, Shifts.Srl, Shifts.Sra;
  }

  lemma PseudoValues(un: Pseudo, a: Word)
    ensures PseudoValue(NEG, a) == Wrap(0 - a)
    ensures PseudoValue(SEQZ, a) == Equal(a, 0)
    ensures PseudoValue(SNEZ, a) == LessU(0, a)
    ensures PseudoValue(SLTZ, a) == a / 0x8000_0000
    ensures PseudoValue(SGTZ, a) == Less(0, a)
  {
    hide Wrap;
  }

  lemma UnaryOk(t: Word, un: Pseudo, rd: Reg, rs1: Reg, s: State)
    requires Ready(s, t) && Legal(Unary(un, rd, rs1))
    ensures Does(s, Run(ExpandUnary(t, un, rd, rs1), s), t, rd, PseudoValue(un, s.regs[rs1]))
  {
    hide Wrap, Run, At, Tables, Less, LessU;
    PseudoValues(un, s.regs[rs1]);
    match un
    case NOT => NotOk(t, rd, rs1, s);
    case NEG => SubOk(t, rd, X0, rs1, s);
    case SEQZ => SeqzOk(t, rd, rs1, s);
    case SNEZ => SltOk(t, SLTU1, rd, X0, rs1, s);
    case SLTZ => MsbOk(rd, rs1, s);
    case SGTZ => SltOk(t, SLT1, rd, X0, rs1, s);
  }

  lemma LoadOk(t: Word, width: Width, rd: Reg, base: Reg, off: int, s: State)
    requires Ready(s, t) && Legal(Load(width, rd, base, off)) && ReadsClear(Load(width, rd, base, off), s, t)
    ensures Does(s, Run(ExpandLoad(t, width, rd, base, off), s), t, rd, LoadValue(width, s.mem, s.Get(base) + off))
  {
    hide Wrap, Run, At, Tables, SignExtend8, SignExtend16, HalfAt, LoadWord;
    var a := s.Get(base) + off;
    match width
    case B => assert Wrap(a) in Touched(width, a); LbOk(t, rd, base, off, s);
    case BU => Run1(Lbu(rd, base, off), s);
    case H => assert Wrap(a) in Touched(width, a) && Wrap(a + 1) in Touched(width, a); LhOk(t, rd, base, off, s);
    case HU => assert Wrap(a) in Touched(width, a) && Wrap(a + 1) in Touched(width, a); LhuOk(t, rd, base, off, s);
    case W => Run1(Lw(rd, base, off), s);
  }

  lemma StoreHalfOk(t: Word, rs: Reg, base: Reg, off: int, s: State)
    requires Ready(s, t) && Free(rs) && Free(base)
    ensures Effect(Source(Store(H, rs, base, off), s), Run(Sh(rs, base, off), s), s.Sp(), t)
  {
    hide Wrap, Run, ByteOf, Tables, Sh;
    ShOk(rs, base, off, s);
  }

  lemma StoreOk(t: Word, width: Width, rs: Reg, base: Reg, off: int, s: State)
    requires Ready(s, t) && Legal(Store(width, rs, base, off))
    ensures Effect(Source(Store(width, rs, base, off), s), Run(ExpandStore(width, rs, base, off), s), s.Sp(), t)
  {
    hide Wrap, Run, Tables, StoreByte, StoreWord, Sh, At;
    match width
    case B => Run1(Sb(rs, base, off), s);
    case H => StoreHalfOk(t, rs, base, off, s);
    case W => Run1(Sw(rs, base, off), s);
  }

  predicate Straight(i: Instr)
  {
    i.RType? || i.IType? || i.Unary? || i.LoadUpper? || i.LoadAddress? || i.Load? || i.Store?
  }

  /** Every instruction that does not jump: its expansion has its effect. */
  lemma StraightOk(t: Word, i: Instr, next: Word, dest: Word, s: State)
    requires Ready(s, t) && Legal(i) && Straight(i) && ReadsClear(i, s, t)
    ensures Effect(Source(i, s), Run(Body(t, i, next, dest), s), s.Sp(), t)
  {
    hide Wrap, Run, Tables, At, AluValue, PseudoValue, LoadValue, StoreValue, ExpandAlu,
      ExpandImm, ExpandUnary, ExpandLoad, ExpandStore, La, Does, Effect;
    var s' := Run(Body(t, i, next, dest), s);
    match i
    case RType(op, rd, rs1, rs2) =>
      AluOk(t, op, rd, rs1, rs2, s);
      DoesEffect(s, s', t, rd, AluValue(op, s.regs[rs1], s.regs[rs2]));
    case IType(op, rd, rs1, imm) =>
      ImmOk(t, op, rd, rs1, imm, s);
      DoesEffect(s, s', t, rd, AluValue(op, s.regs[rs1], Wrap(imm)));
    case Unary(un, rd, rs1) =>
      UnaryOk(t, un, rd, rs1, s);
      DoesEffect(s, s', t, rd, PseudoValue(un, s.regs[rs1]));
    case LoadUpper(rd, hi) =>
      Run1(Lui(rd, hi), s);
      SameEffect(s', s.Sp(), t);
    case LoadAddress(rd, symbol) =>
      LaOk(rd, symbol, s);
      SameEffect(s', s.Sp(), t);
    case Load(width, rd, base, off) =>
      LoadOk(t, width, rd, base, off, s);
      DoesEffect(s, s', t, rd, LoadValue(width, s.mem, s.Get(base) + off));
    case Store(width, rs, base, off) =>
      StoreOk(t, width, rs, base, off, s);
  }

  lemma SameEffect(s: State, sp: int, t: Word)
    ensures Effect(s, s, sp, t)
  {
    hide At;
  }
}
