/** Whole programs: every run of a program is a run of its expansion. */
module RvProgram {
  import opened Basics
  import opened RvMachine
  import opened Lut
  import opened RvMacros
  import opened RvEffects
  import opened RvCompare
  import opened RvEqual
  import opened RvLogic
  import opened RvShift
  import opened RvAccess
  import opened RvBranch
  import opened Rv32
  import opened RvExpand
  import opened RvFields
  import Shifts

  /** The value of the flag that a branch computes. */
  function FlagValue(cond: Cond, rs1: Reg, rs2: Reg, a: Word, b: Word): int
  {
    if FlagTakes(cond, rs1, rs2) == Holds(cond, a, b) then 1 else 0
  }

  lemma FlagOk(t: Word, cond: Cond, rs1: Reg, rs2: Reg, s: State)
    requires Ready(s, t) && Free(rs1) && Free(rs2)
    ensures var s' := Run(Flag(t, cond, rs1, rs2), s);
      && s'.Get(TP) == FlagValue(cond, rs1, rs2, s.regs[rs1], s.regs[rs2])
      && Keeps(s.regs, s'.regs, {GP, TP})
      && Clean(s.mem, s'.mem, s.Sp(), t)
  {
    hide Wrap, Run, Tables, At, Msb, NotPositive, SltTemplate, Seq, Seqz;
    match cond
    case EQ | NE =>
      if rs2 == X0 {
        SeqzOk(t, TP, rs1, s);
      } else if rs1 == X0 {
        SeqzOk(t, TP, rs2, s);
      } else {
        SeqOk(t, TP, rs1, rs2, s);
      }
    case LT =>
      if rs2 == X0 {
        MsbOk(TP, rs1, s);
      } else if rs1 == X0 {
        NotPositiveOk(t, rs2, s);
      } else {
        SltOk(t, SLT1, TP, rs1, rs2, s);
      }
    case GE =>
      if rs1 == X0 {
        NotPositiveOk(t, rs2, s);
      } else {
        SltOk(t, SLT1, TP, rs1, rs2, s);
      }
    case LTU | GEU => SltOk(t, SLTU1, TP, rs1, rs2, s);
  }

  /** The body of a branch leaves in tp the address to go to. */
  lemma BranchOk(t: Word, i: Instr, next: Word, dest: Word, s: State)
    requires Ready(s, t) && Legal(i) && i.Branch?
    ensures var s' := Run(Body(t, i, next, dest), s);
      && s'.Get(TP) == (if Holds(i.cond, s.regs[i.rs1], s.regs[i.rs2]) then dest else next)
      && Effect(s, s', s.Sp(), t)
  {
    hide Wrap, Run, Tables, At, Flag, BranchResolve, Holds;
    FlagOk(t, i.cond, i.rs1, i.rs2, s);
    var s1 := Run(Flag(t, i.cond, i.rs1, i.rs2), s);
    var high, low := if FlagTakes(i.cond, i.rs1, i.rs2) then dest else next, if FlagTakes(i.cond, i.rs1, i.rs2) then next else dest;
    RunAppend(Flag(t, i.cond, i.rs1, i.rs2), BranchResolve(high, low), s);
    BranchResolveOk(high, low, s1);
  }

  // The layout.

  function Size(i: Instr): nat
  {
    |Expand(0, i, 0, 0)|
  }

  /** Where instruction `k` starts, in base instructions. */
  function Start(p: seq<Instr>, k: nat): nat
    requires k <= |p|
  {
    if k == 0 then 0 else Start(p, k - 1) + Size(p[k - 1])
  }

  predicate Fits(p: seq<Instr>, origin: Word)
  {
    origin % 4 == 0 && origin + 4 * Start(p, |p|) < WORDS
  }

  lemma {:induction false} StartGrows(p: seq<Instr>, k: nat, n: nat)
    requires k <= n <= |p|
    ensures Start(p, k) <= Start(p, n)
  {
    hide Size;
    if k < n {
      StartGrows(p, k, n - 1);
    }
  }

  function Address(p: seq<Instr>, origin: Word, k: nat): Word
    requires k <= |p| && Fits(p, origin)
  {
    StartGrows(p, k, |p|);
    origin + 4 * Start(p, k)
  }

  /** The addresses the assembler gives to the instructions, and to the end. */
  function Labels(p: seq<Instr>, origin: Word): (addr: seq<Word>)
    requires Fits(p, origin)
    ensures |addr| == |p| + 1
  {
    seq(|p| + 1, k requires 0 <= k <= |p| => Address(p, origin, k))
  }

  predicate WellFormed(p: seq<Instr>)
  {
    forall k :: 0 <= k < |p| ==> Legal(p[k]) && Target(p[k]) <= |p|
  }

  function Target(i: Instr): nat
  {
    match i
    case Branch(_, _, _, target) => target
    case Jump(_, target) => target
    case TailCall(target) => target
    case _ => 0
  }

  /** The expansion of instruction `k`. */
  function ExpandAt(t: Word, p: seq<Instr>, origin: Word, k: nat): seq<Base>
    requires k < |p| && Fits(p, origin) && Target(p[k]) <= |p|
  {
    Expand(t, p[k], Address(p, origin, k + 1), Address(p, origin, Target(p[k])))
  }

  function CodeUpTo(t: Word, p: seq<Instr>, origin: Word, k: nat): seq<Base>
    requires k <= |p| && Fits(p, origin) && WellFormed(p)
  {
    if k == 0 then [] else CodeUpTo(t, p, origin, k - 1) + ExpandAt(t, p, origin, k - 1)
  }

  function Code(t: Word, p: seq<Instr>, origin: Word): seq<Base>
    requires Fits(p, origin) && WellFormed(p)
  {
    CodeUpTo(t, p, origin, |p|)
  }

  // Only the constants loaded with la depend on addresses, and those always take two instructions.

  lemma LaLength(r: Reg, a: Word)
    ensures |La(r, a)| == 2
  {
  }

  lemma NotSize(t: Word, rd: Reg, rs1: Reg)
    ensures |RvMacros.Not(t, rd, rs1)| == |RvMacros.Not(0, rd, rs1)|
  {
    hide La, NotByte, Wrap;
    LaLength(TP, Wrap(t + LUT + Xor8.Offset() + 0xff * 0x100));
    LaLength(TP, Wrap(0 + LUT + Xor8.Offset() + 0xff * 0x100));
  }

  lemma SubSize(t: Word, rd: Reg, rs1: Reg, rs2: Reg)
    ensures |RvMacros.Sub(t, rd, rs1, rs2)| == |RvMacros.Sub(0, rd, rs1, rs2)|
  {
    hide RvMacros.Not;
    NotSize(t, TP, rs2);
  }

  lemma SltIndexSize(t: Word)
    ensures |SltIndex(t)| == |SltIndex(0)|
  {
    hide Msb, Slli, RvMacros.Sub;
    SubSize(t, TP, S0, S1);
  }

  lemma SltFetchSize(t: Word, table: nat, rd: Reg)
    ensures |SltFetch(t, table, rd)| == |SltFetch(0, table, rd)|
  {
    hide La, Wrap;
    LaLength(TP, Wrap(t + table));
    LaLength(TP, Wrap(0 + table));
  }

  lemma SltSize(t: Word, table: nat, rd: Reg, rs1: Reg, rs2: Reg)
    ensures |SltTemplate(t, table, rd, rs1, rs2)| == |SltTemplate(0, table, rd, rs1, rs2)|
  {
    hide SltSave, SltIndex, SltFetch;
    SltIndexSize(t);
    SltFetchSize(t, table, rd);
  }

  lemma LogicSize(t: Word, table: Table, rd: Reg, rs1: Reg, rs2: Reg)
    ensures |Logic(t, table, rd, rs1, rs2)| == |Logic(0, table, rd, rs1, rs2)|
  {
    hide La, LogicByte, Wrap;
    LaLength(rd, Wrap(t + LUT + table.Offset()));
    LaLength(rd, Wrap(0 + LUT + table.Offset()));
  }

  lemma SeqSize(t: Word, rd: Reg, rs1: Reg, rs2: Reg)
    ensures |Seq(t, rd, rs1, rs2)| == |Seq(0, rd, rs1, rs2)|
  {
    hide La, SeqCount, Wrap;
    LaLength(S0, Wrap(t + Lut.CHECK_SAME));
    LaLength(S0, Wrap(0 + Lut.CHECK_SAME));
    LaLength(TP, Wrap(t + SAME_RESULT));
    LaLength(TP, Wrap(0 + SAME_RESULT));
  }

  lemma SeqzSize(t: Word, rd: Reg, rs1: Reg)
    ensures |Seqz(t, rd, rs1)| == |Seqz(0, rd, rs1)|
  {
    hide La, SeqzCount, Wrap;
    LaLength(S0, Wrap(t + CHECK_ZERO));
    LaLength(S0, Wrap(0 + CHECK_ZERO));
    LaLength(TP, Wrap(t + SAME_RESULT));
    LaLength(TP, Wrap(0 + SAME_RESULT));
  }

  lemma NotPositiveSize(t: Word, rs: Reg)
    ensures |NotPositive(t, rs)| == |NotPositive(0, rs)|
  {
    hide La, Msb, Wrap;
    LaLength(TP, Wrap(t + OR1));
    LaLength(TP, Wrap(0 + OR1));
  }

  lemma ShamtSize(t: Word, rd: Reg, rs1: Reg)
    ensures |GetShamt(t, rd, rs1)| == |GetShamt(0, rd, rs1)|
  {
    hide La, Wrap;
    LaLength(TP, Wrap(t + LUT + And8.Offset() + 0x1f * 0x100));
    LaLength(TP, Wrap(0 + LUT + And8.Offset() + 0x1f * 0x100));
  }

  lemma RowSize(t: Word, table: Table, rs2: Reg)
    ensures |ShiftRow(t, table, rs2)| == |ShiftRow(0, table, rs2)|
  {
    hide La, GetShamt, Slli, Wrap;
    ShamtSize(t, S0, rs2);
    LaLength(TP, Wrap(t + LUT + table.Offset()));
    LaLength(TP, Wrap(0 + LUT + table.Offset()));
  }

  lemma SllSize(t: Word, rd: Reg, rs1: Reg, rs2: Reg)
    ensures |RvMacros.Sll(t, rd, rs1, rs2)| == |RvMacros.Sll(0, rd, rs1, rs2)|
  {
    hide ShiftRow, SllBytes, RestoreAdd;
    RowSize(t, Sll8, rs2);
  }

  lemma ShiftRightSize(t: Word, rd: Reg, rs1: Reg, rs2: Reg, arith: bool)
    ensures |ShiftRight(t, rd, rs1, rs2, arith)| == |ShiftRight(0, rd, rs1, rs2, arith)|
  {
    hide ShiftRow, SrlBytes, SrlTop;
    RowSize(t, Srl8, rs2);
  }

  lemma ShiftRightImmSize(t: Word, rd: Reg, rs1: Reg, imm: nat, arith: bool)
    ensures |ShiftRightImm(t, rd, rs1, imm, arith)| == |ShiftRightImm(0, rd, rs1, imm, arith)|
  {
    hide La, Slli, GetByte, SrlBytes, SrlTop, Wrap;
    LaLength(TP, Wrap(t + LUT + Sra8.Offset() + imm * 0x400));
    LaLength(TP, Wrap(0 + LUT + Sra8.Offset() + imm * 0x400));
    LaLength(S0, Wrap(t + LUT + Srl8.Offset() + imm * 0x400));
    LaLength(S0, Wrap(0 + LUT + Srl8.Offset() + imm * 0x400));
  }

  lemma AluSize(t: Word, op: Alu, rd: Reg, rs1: Reg, rs2: Reg)
    ensures |ExpandAlu(t, op, rd, rs1, rs2)| == |ExpandAlu(0, op, rd, rs1, rs2)|
  {
    hide RvMacros.Sub, SltTemplate, Logic, RvMacros.Sll, ShiftRight;
    match op
    case ADD =>
    case SUB => SubSize(t, rd, rs1, rs2);
    case SLT => SltSize(t, SLT1, rd, rs1, rs2);
    case SLTU => SltSize(t, SLTU1, rd, rs1, rs2);
    case AND => LogicSize(t, And8, rd, rs1, rs2);
    case OR => LogicSize(t, Or8, rd, rs1, rs2);
    case XOR => LogicSize(t, Xor8, rd, rs1, rs2);
    case SLL => SllSize(t, rd, rs1, rs2);
    case SRL => ShiftRightSize(t, rd, rs1, rs2, false);
    case SRA => ShiftRightSize(t, rd, rs1, rs2, true);
  }

  lemma ImmSize(t: Word, op: Alu, rd: Reg, rs1: Reg, imm: int)
    ensures |ExpandImm(t, op, rd, rs1, imm)| == |ExpandImm(0, op, rd, rs1, imm)|
  {
    hide Slli, ShiftRightImm, ExpandAlu;
    AluSize(t, op, rd, rs1, TP);
    ShiftRightImmSize(t, rd, rs1, Amount(imm), false);
    ShiftRightImmSize(t, rd, rs1, Amount(imm), true);
  }

  lemma UnarySize(t: Word, un: Pseudo, rd: Reg, rs1: Reg)
    ensures |ExpandUnary(t, un, rd, rs1)| == |ExpandUnary(0, un, rd, rs1)|
  {
    hide RvMacros.Not, RvMacros.Sub, Seqz, SltTemplate, Msb;
    match un
    case NOT => NotSize(t, rd, rs1);
    case NEG => SubSize(t, rd, X0, rs1);
    case SEQZ => SeqzSize(t, rd, rs1);
    case SNEZ => SltSize(t, SLTU1, rd, X0, rs1);
    case SLTZ =>
    case SGTZ => SltSize(t, SLT1, rd, X0, rs1);
  }

  lemma LoadSize(t: Word, width: Width, rd: Reg, base: Reg, off: int)
    ensures |ExpandLoad(t, width, rd, base, off)| == |ExpandLoad(0, width, rd, base, off)|
  {
    hide ShiftRightImm, Lhu;
    ShiftRightImmSize(t, rd, rd, 24, true);
    ShiftRightImmSize(t, GP, GP, 16, true);
  }

  lemma FlagSize(t: Word, cond: Cond, rs1: Reg, rs2: Reg)
    ensures |Flag(t, cond, rs1, rs2)| == |Flag(0, cond, rs1, rs2)|
  {
    hide Seqz, Seq, Msb, NotPositive, SltTemplate;
    SeqzSize(t, TP, rs1);
    SeqzSize(t, TP, rs2);
    SeqSize(t, TP, rs1, rs2);
    NotPositiveSize(t, rs2);
    SltSize(t, SLT1, TP, rs1, rs2);
    SltSize(t, SLTU1, TP, rs1, rs2);
  }

  lemma ChoiceSize(takes: bool, next: Word, dest: Word)
    ensures |Choice(takes, next, dest)| == |Choice(takes, 0, 0)|
  {
    hide La, Slli;
    LaLength(GP, next);
    LaLength(GP, dest);
    LaLength(GP, 0);
  }

  /** The length of an expansion depends neither on addresses nor on where the tables are. */
  lemma SizeFixed(t: Word, i: Instr, next: Word, dest: Word)
    ensures |Expand(t, i, next, dest)| == Size(i)
  {
    hide La, Choice, ExpandAlu, ExpandImm, ExpandUnary, ExpandLoad, ExpandStore, Flag;
    match i
    case RType(op, rd, rs1, rs2) => AluSize(t, op, rd, rs1, rs2);
    case IType(op, rd, rs1, imm) => ImmSize(t, op, rd, rs1, imm);
    case Unary(un, rd, rs1) => UnarySize(t, un, rd, rs1);
    case Load(width, rd, base, off) => LoadSize(t, width, rd, base, off);
    case Branch(cond, rs1, rs2, _) =>
      FlagSize(t, cond, rs1, rs2);
      ChoiceSize(FlagTakes(cond, rs1, rs2), next, dest);
    case LoadAddress(rd, symbol) =>
    case Jump(rd, _) =>
      LaLength(if rd == X0 then TP else rd, dest);
      LaLength(if rd == X0 then TP else rd, 0);
    case TailCall(_) =>
      LaLength(TP, dest);
      LaLength(TP, 0);
      LaLength(RA, dest);
      LaLength(RA, 0);
    case _ =>
  }

  lemma {:induction false} CodeLength(t: Word, p: seq<Instr>, origin: Word, k: nat)
    requires k <= |p| && Fits(p, origin) && WellFormed(p)
    ensures |CodeUpTo(t, p, origin, k)| == Start(p, k)
  {
    hide Size, Expand, Legal, Address;
    if k > 0 {
      CodeLength(t, p, origin, k - 1);
      SizeFixed(t, p[k - 1], Address(p, origin, k), Address(p, origin, Target(p[k - 1])));
    }
  }

  /** The code of instruction `k` stands at its start. */
  lemma {:induction false} CodeAt(t: Word, p: seq<Instr>, origin: Word, k: nat, n: nat)
    requires k < n <= |p| && Fits(p, origin) && WellFormed(p)
    ensures var code := CodeUpTo(t, p, origin, n);
      && Start(p, k) + Size(p[k]) <= |code|
      && |ExpandAt(t, p, origin, k)| == Size(p[k])
      && code[Start(p, k)..Start(p, k) + Size(p[k])] == ExpandAt(t, p, origin, k)
    decreases n
  {
    hide Size, Expand, Legal, Address;
    SizeFixed(t, p[k], Address(p, origin, k + 1), Address(p, origin, Target(p[k])));
    CodeLength(t, p, origin, n - 1);
    CodeLength(t, p, origin, n);
    if k < n - 1 {
      CodeAt(t, p, origin, k, n - 1);
    }
  }

  // Execution of the expanded program.

  lemma {:induction false} StepsAdd(code: seq<Base>, origin: Word, m: Machine, i: nat, j: nat)
    requires Steps(code, origin, m, i).Some?
    ensures Steps(code, origin, m, i + j) == Steps(code, origin, Steps(code, origin, m, i).value, j)
    decreases i
  {
    hide Step;
    if i > 0 {
      StepsAdd(code, origin, Step(code, origin, m).value, i - 1, j);
    }
  }

  lemma BehindFirst(code: seq<Base>, at: nat, body: seq<Base>)
    requires body != [] && at + |body| <= |code| && code[at..at + |body|] == body && Jumpless(body)
    ensures code[at] == body[0] && !body[0].Jalr?
    ensures code[at + 1..at + 1 + |body[1..]|] == body[1..] && Jumpless(body[1..])
  {
    assert body[0] in body;
  }

  lemma StraightOne(code: seq<Base>, origin: Word, at: nat, s: State)
    requires origin + 4 * |code| < WORDS && at < |code| && !code[at].Jalr?
    ensures Step(code, origin, Machine(origin + 4 * at, s)) == Some(Machine(origin + 4 * (at + 1), Exec(code[at], s)))
  {
    hide Exec;
  }

  /** Straight-line code runs from its first to its last instruction. */
  lemma {:induction false} StraightSteps(code: seq<Base>, origin: Word, at: nat, body: seq<Base>, s: State)
    requires origin + 4 * |code| < WORDS && Jumpless(body)
    requires at + |body| <= |code| && code[at..at + |body|] == body
    ensures Steps(code, origin, Machine(origin + 4 * at, s), |body|) == Some(Machine(origin + 4 * (at + |body|), Run(body, s)))
    decreases |body|
  {
    hide Exec, Step;
    if body != [] {
      BehindFirst(code, at, body);
      StraightOne(code, origin, at, s);
      StraightSteps(code, origin, at + 1, body[1..], Exec(body[0], s));
    }
  }

  /** The machine state that stands for a state of the program: memory may differ at the
      addresses in `dirty`. */
  ghost predicate Rel(t: Word, p: seq<Instr>, origin: Word, c: Cpu, dirty: iset<Word>, m: Machine)
    requires Fits(p, origin) && t + SECTION <= WORDS
  {
    && c.pc <= |p|
    && m.pc == Address(p, origin, c.pc)
    && Keeps(c.st.regs, m.st.regs, {GP, TP})
    && (forall a: Word :: a !in dirty ==> At(m.st.mem, a) == At(c.st.mem, a))
    && Tables(m.st.mem, t)
  }

  function Stored(i: Instr, s: State): set<Word>
  {
    if i.Store? then Touched(i.width, s.Get(i.base) + i.off) else {}
  }

  /** Any instruction may leave anything in the 28 bytes below the stack pointer; a byte
      that the program stores is its own again. */
  ghost function DirtyAfter(i: Instr, s: State, dirty: iset<Word>, t: Word): iset<Word>
  {
    iset a: Word | (a in dirty && a !in Stored(i, s)) || !ClearOfScratch(a, s.Sp()) || !OutsideArray(a, t)
  }

  /** What the program must respect at each instruction: room below the stack pointer,
      no read of a byte that the expansion may have overwritten, no store to the tables. */
  ghost predicate Allowed(i: Instr, s: State, dirty: iset<Word>, t: Word)
  {
    && Room(s, t)
    && (i.Load? ==> forall a :: a in Touched(i.width, s.Get(i.base) + i.off) ==>
          a !in dirty && ClearOfScratch(a, s.Sp()) && OutsideArray(a, t))
    && forall a :: a in Stored(i, s) ==> !(t + SAME_RESULT <= a < t + SECTION)
  }

  lemma LoadCongruence(width: Width, m: Mem, m': Mem, a: int)
    requires forall b :: b in Touched(width, a) ==> At(m', b) == At(m, b)
    ensures LoadValue(width, m', a) == LoadValue(width, m, a)
  {
    hide Wrap, At, SignExtend8, SignExtend16, Pack;
    assert width in {H, HU} ==> Wrap(a + 1) in Touched(width, a);
    assert Wrap(a) in Touched(width, a);
    if width == W {
      assert Wrap(Wrap(a) + 1) in Touched(width, a) && Wrap(Wrap(a) + 2) in Touched(width, a) && Wrap(Wrap(a) + 3) in Touched(width, a);
    }
  }

  lemma StoreCongruence(width: Width, m: Mem, m': Mem, a: int, v: Word, dirty: iset<Word>)
    requires forall b: Word :: b !in dirty ==> At(m', b) == At(m, b)
    ensures forall b: Word :: b !in dirty || b in Touched(width, a) ==>
      At(StoreValue(width, m', a, v), b) == At(StoreValue(width, m, a, v), b)
  {
    hide Wrap, ByteOf;
  }

  /** The program's own step takes agreeing registers to agreeing registers. */
  lemma RegisterCongruence(i: Instr, u: State, s: State)
    requires Legal(i) && Keeps(u.regs, s.regs, {GP, TP})
    requires i.Load? ==> LoadValue(i.width, s.mem, u.Get(i.base) + i.off) == LoadValue(i.width, u.mem, u.Get(i.base) + i.off)
    ensures Keeps(Source(i, u).regs, Source(i, s).regs, {GP, TP})
  {
    hide Wrap, At, AluValue, PseudoValue, LoadValue, StoreValue, Touched;
  }

  /** And agreeing memory to agreeing memory. */
  lemma MemoryCongruence(i: Instr, u: State, s: State, dirty: iset<Word>)
    requires Legal(i) && Keeps(u.regs, s.regs, {GP, TP})
    requires forall a: Word :: a !in dirty ==> At(s.mem, a) == At(u.mem, a)
    ensures forall a: Word :: a !in dirty || a in Stored(i, u) ==> At(Source(i, s).mem, a) == At(Source(i, u).mem, a)
  {
    hide Wrap, At, AluValue, PseudoValue, LoadValue, StoreValue, Touched;
    if i.Store? {
      StoreCongruence(i.width, u.mem, s.mem, u.Get(i.base) + i.off, u.regs[i.rs], dirty);
    }
  }

  /** The tables survive an expansion: scratch words lie elsewhere, and the program's own
      stores must. */
  lemma TablesKept(i: Instr, s: State, s': State, t: Word)
    requires Ready(s, t) && Effect(Source(i, s), s', s.Sp(), t)
    requires forall a :: a in Stored(i, s) ==> !(t + SAME_RESULT <= a < t + SECTION)
    ensures Tables(s'.mem, t)
  {
    hide At, SectionByte, AluValue, PseudoValue, LoadValue, StoreValue, Touched;
    if i.Store? {
      StoreElsewhere(i.width, s.mem, s.Get(i.base) + i.off, s.regs[i.rs]);
    }
    forall k | SAME_RESULT <= k < SECTION
      ensures At(s'.mem, t + k) == SectionByte(k)
    {
      TableByteKept(Source(i, s), s, s', t, k);
      assert t + k !in Stored(i, s);
      assert At(Source(i, s).mem, t + k) == At(s.mem, t + k);
    }
  }

  lemma TableByteKept(u: State, s: State, s': State, t: Word, k: int)
    requires Room(s, t) && Effect(u, s', s.Sp(), t) && SAME_RESULT <= k < SECTION
    ensures At(s'.mem, t + k) == At(u.mem, t + k)
  {
    hide At;
  }

  lemma StoreElsewhere(width: Width, m: Mem, a: int, v: Word)
    ensures forall b: Word :: b !in Touched(width, a) ==> At(StoreValue(width, m, a, v), b) == At(m, b)
  {
    hide Wrap, ByteOf;
  }

  /** What an expansion does to the relation, given its effect. */
  lemma RelKept(i: Instr, u: State, s: State, s': State, dirty: iset<Word>, t: Word)
    requires Legal(i) && Allowed(i, u, dirty, t) && Keeps(u.regs, s.regs, {GP, TP}) && Tables(s.mem, t)
    requires forall a: Word :: a !in dirty ==> At(s.mem, a) == At(u.mem, a)
    requires Effect(Source(i, s), s', s.Sp(), t)
    ensures Keeps(Source(i, u).regs, s'.regs, {GP, TP})
    ensures forall a: Word :: a !in DirtyAfter(i, u, dirty, t) ==> At(s'.mem, a) == At(Source(i, u).mem, a)
    ensures Tables(s'.mem, t)
  {
    hide At, Tables, Source, Touched;
    if i.Load? {
      LoadCongruence(i.width, u.mem, s.mem, u.Get(i.base) + i.off);
    }
    RegisterCongruence(i, u, s);
    MemoryCongruence(i, u, s, dirty);
    assert i.Store? ==> s.Get(i.base) == u.Get(i.base);
    assert Stored(i, s) == Stored(i, u);
    assert Room(s, t);
    TablesKept(i, s, s', t);
  }

  predicate Program(t: Word, p: seq<Instr>, origin: Word)
  {
    Fits(p, origin) && WellFormed(p) && t + SECTION <= WORDS
  }

  lemma WholeCode(t: Word, p: seq<Instr>, origin: Word, k: nat)
    requires Program(t, p, origin) && k < |p|
    ensures var code := Code(t, p, origin);
      && origin + 4 * |code| < WORDS
      && Start(p, k) + Size(p[k]) <= |code| && Start(p, k + 1) == Start(p, k) + Size(p[k])
      && |ExpandAt(t, p, origin, k)| == Size(p[k])
      && code[Start(p, k)..Start(p, k) + Size(p[k])] == ExpandAt(t, p, origin, k)
  {
    hide Size, Expand, Legal, Address, CodeUpTo;
    CodeAt(t, p, origin, k, |p|);
    CodeLength(t, p, origin, |p|);
  }

  lemma FrontOf(code: seq<Base>, at: nat, body: seq<Base>, tail: seq<Base>)
    requires at + |body + tail| <= |code| && code[at..at + |body + tail|] == body + tail
    ensures code[at..at + |body|] == body
  {
    var whole := code[at..at + |body + tail|];
    assert whole[..|body|] == body;
    assert code[at..at + |body|] == whole[..|body|];
  }

  /** The body of instruction `k` runs through, wherever it ends. */
  lemma BodySteps(t: Word, p: seq<Instr>, origin: Word, k: nat, s: State)
    requires Program(t, p, origin) && k < |p|
    ensures var i, next, dest := p[k], Address(p, origin, k + 1), Address(p, origin, Target(p[k]));
      var body := Body(t, i, next, dest);
      Steps(Code(t, p, origin), origin, Machine(Address(p, origin, k), s), |body|)
        == Some(Machine(Wrap(Address(p, origin, k) + 4 * |body|), Run(body, s)))
  {
    hide Size, Body, Tail, Legal, Code, Run, Steps;
    WholeCode(t, p, origin, k);
    var dest := Address(p, origin, Target(p[k]));
    var body := Body(t, p[k], Address(p, origin, k + 1), dest);
    var code := Code(t, p, origin);
    FrontOf(code, Start(p, k), body, Tail(p[k], dest));
    BodyPlain(t, p[k], Address(p, origin, k + 1), dest);
    StraightSteps(code, origin, Start(p, k), body, s);
  }

  lemma StraightStep(t: Word, p: seq<Instr>, origin: Word, c: Cpu, dirty: iset<Word>, m: Machine)
    requires Program(t, p, origin) && Rel(t, p, origin, c, dirty, m)
    requires c.pc < |p| && Straight(p[c.pc]) && Allowed(p[c.pc], c.st, dirty, t)
    ensures var i := p[c.pc];
      var r := Steps(Code(t, p, origin), origin, m, Size(i));
      r.Some? && Rel(t, p, origin, Cpu(c.pc + 1, Source(i, c.st)), DirtyAfter(i, c.st, dirty, t), r.value)
  {
    hide Size, Body, Legal, Code, Run, Steps, Tables, At, Source, Touched;
    var i, next := p[c.pc], Address(p, origin, c.pc + 1);
    var dest := Address(p, origin, Target(i));
    BodySteps(t, p, origin, c.pc, m.st);
    WholeCode(t, p, origin, c.pc);
    ReadsStayClear(i, c.st, m.st, dirty, t);
    StraightOk(t, i, next, dest, m.st);
    RelKept(i, c.st, m.st, Run(Body(t, i, next, dest), m.st), dirty, t);
  }

  lemma ReadsStayClear(i: Instr, u: State, s: State, dirty: iset<Word>, t: Word)
    requires Legal(i) && Allowed(i, u, dirty, t) && Keeps(u.regs, s.regs, {GP, TP})
    ensures ReadsClear(i, s, t) && Room(s, t)
  {
    hide Touched;
    if i.Load? {
      assert s.Get(i.base) == u.Get(i.base);
      forall a | a in Touched(i.width, s.Get(i.base) + i.off)
        ensures ClearOfScratch(a, s.Sp()) && OutsideArray(a, t)
      {
      }
    }
  }

  /** The body and the jump that ends it. */
  lemma JumpSteps(t: Word, p: seq<Instr>, origin: Word, k: nat, s: State, rd: Reg, rs: Reg, off: int)
    requires Program(t, p, origin) && k < |p|
    requires var tail := Tail(p[k], Address(p, origin, Target(p[k])));
      tail != [] && tail[0] == Jalr(rd, rs, off)
    ensures var body := Body(t, p[k], Address(p, origin, k + 1), Address(p, origin, Target(p[k])));
      var s' := Run(body, s);
      Steps(Code(t, p, origin), origin, Machine(Address(p, origin, k), s), |body| + 1)
        == Some(Machine(EvenTarget(s'.Get(rs) + off), s'.Set(rd, Wrap(Address(p, origin, k) + 4 * |body| + 4))))
  {
    hide Size, Body, Legal, Code, Run, Tail, Step, Steps, EvenTarget, Wrap, Address;
    var body := Body(t, p[k], Address(p, origin, k + 1), Address(p, origin, Target(p[k])));
    var code, m := Code(t, p, origin), Machine(Address(p, origin, k), s);
    BodySteps(t, p, origin, k, s);
    StepsAdd(code, origin, m, |body|, 1);
    var m' := Machine(Wrap(Address(p, origin, k) + 4 * |body|), Run(body, s));
    OneStep(code, origin, m');
    JalrStep(t, p, origin, k, Run(body, s), rd, rs, off);
  }

  lemma OneStep(code: seq<Base>, origin: Word, m: Machine)
    ensures Steps(code, origin, m, 1) == Step(code, origin, m)
  {
    hide Step;
    if Step(code, origin, m).Some? {
      StepsNone(code, origin, Step(code, origin, m).value);
    }
  }

  /** The jump behind the body. */
  lemma JalrStep(t: Word, p: seq<Instr>, origin: Word, k: nat, s: State, rd: Reg, rs: Reg, off: int)
    requires Program(t, p, origin) && k < |p|
    requires var tail := Tail(p[k], Address(p, origin, Target(p[k])));
      tail != [] && tail[0] == Jalr(rd, rs, off)
    ensures var n := |Body(t, p[k], Address(p, origin, k + 1), Address(p, origin, Target(p[k])))|;
      Step(Code(t, p, origin), origin, Machine(Wrap(Address(p, origin, k) + 4 * n), s))
        == Some(Machine(EvenTarget(s.Get(rs) + off), s.Set(rd, Wrap(Address(p, origin, k) + 4 * n + 4))))
  {
    hide Size, Body, Legal, CodeUpTo, Tail, Exec, EvenTarget, Wrap;
    var n := |Body(t, p[k], Address(p, origin, k + 1), Address(p, origin, Target(p[k])))|;
    var code := Code(t, p, origin);
    WholeCode(t, p, origin, k);
    assert ExpandAt(t, p, origin, k)[n] == Jalr(rd, rs, off);
    assert code[Start(p, k) + n] == code[Start(p, k)..Start(p, k) + Size(p[k])][n];
    assert Wrap(Address(p, origin, k) + 4 * n) == origin + 4 * (Start(p, k) + n);
  }

  lemma Aligned(p: seq<Instr>, origin: Word, k: nat)
    requires k <= |p| && Fits(p, origin)
    ensures EvenTarget(Address(p, origin, k)) == Address(p, origin, k)
  {
    hide Start, Size, Wrap;
    EvenSum(origin, Start(p, k));
  }

  lemma EvenSum(origin: Word, k: nat)
    requires origin % 4 == 0
    ensures (origin + 4 * k) % 2 == 0
  {
    var q := origin / 4;
    assert origin + 4 * k == 2 * (2 * q + 2 * k);
    Twice(2 * q + 2 * k);
  }

  lemma Twice(x: int)
    ensures (2 * x) % 2 == 0
  {
  }

  /** A jump leaves memory alone, so the relation is about registers only. */
  lemma RelAfterJump(t: Word, p: seq<Instr>, origin: Word, c: Cpu, dirty: iset<Word>, m: Machine, c': Cpu, m': Machine, s': State)
    requires Program(t, p, origin) && Rel(t, p, origin, c, dirty, m)
    requires c.pc < |p| && !Straight(p[c.pc]) && Allowed(p[c.pc], c.st, dirty, t)
    requires Clean(m.st.mem, s'.mem, m.st.Sp(), t) && m'.st.mem == s'.mem
    requires c'.pc <= |p| && m'.pc == Address(p, origin, c'.pc)
    requires c'.st.mem == c.st.mem && Keeps(c'.st.regs, m'.st.regs, {GP, TP})
    ensures Rel(t, p, origin, c', DirtyAfter(p[c.pc], c.st, dirty, t), m')
  {
    hide Size, Legal, Address, At, SectionByte, Touched;
    forall k | SAME_RESULT <= k < SECTION
      ensures At(m'.st.mem, t + k) == SectionByte(k)
    {
      assert At(m'.st.mem, t + k) == At(m.st.mem, t + k);
    }
  }

  lemma BranchStep(t: Word, p: seq<Instr>, origin: Word, c: Cpu, dirty: iset<Word>, m: Machine)
    requires Program(t, p, origin) && Rel(t, p, origin, c, dirty, m)
    requires c.pc < |p| && p[c.pc].Branch? && Allowed(p[c.pc], c.st, dirty, t)
    ensures var i := p[c.pc];
      var c' := Cpu(if Holds(i.cond, c.st.regs[i.rs1], c.st.regs[i.rs2]) then i.target else c.pc + 1, c.st);
      exists n: nat, m': Machine ::
        Steps(Code(t, p, origin), origin, m, n) == Some(m') && Rel(t, p, origin, c', DirtyAfter(i, c.st, dirty, t), m')
  {
    hide Size, Body, Code, Run, Steps, Tables, At, Address, EvenTarget, Holds;
    var i, next := p[c.pc], Address(p, origin, c.pc + 1);
    var dest := Address(p, origin, i.target);
    var taken := Holds(i.cond, c.st.regs[i.rs1], c.st.regs[i.rs2]);
    assert m.st.regs[i.rs1] == c.st.regs[i.rs1] && m.st.regs[i.rs2] == c.st.regs[i.rs2];
    var body := Body(t, i, next, dest);
    var s' := Run(body, m.st);
    BranchOk(t, i, next, dest, m.st);
    JumpSteps(t, p, origin, c.pc, m.st, X0, TP, 0);
    Aligned(p, origin, c.pc + 1);
    Aligned(p, origin, i.target);
    var c' := Cpu(if taken then i.target else c.pc + 1, c.st);
    var m' := Machine(Address(p, origin, c'.pc), s');
    RelAfterJump(t, p, origin, c, dirty, m, c', m', s');
    assert Steps(Code(t, p, origin), origin, m, |body| + 1) == Some(m');
  }

  lemma JumpStep(t: Word, p: seq<Instr>, origin: Word, c: Cpu, dirty: iset<Word>, m: Machine)
    requires Program(t, p, origin) && Rel(t, p, origin, c, dirty, m)
    requires c.pc < |p| && p[c.pc].Jump? && Allowed(p[c.pc], c.st, dirty, t)
    ensures var i := p[c.pc];
      var c' := Cpu(i.target, c.st.Set(i.rd, Address(p, origin, c.pc + 1)));
      exists n: nat, m': Machine ::
        Steps(Code(t, p, origin), origin, m, n) == Some(m') && Rel(t, p, origin, c', DirtyAfter(i, c.st, dirty, t), m')
  {
    hide Size, Code, Run, Steps, Tables, At, Address, EvenTarget, La, Wrap;
    var i, next := p[c.pc], Address(p, origin, c.pc + 1);
    var dest := Address(p, origin, i.target);
    var r := if i.rd == X0 then TP else i.rd;
    LaOk(r, dest, m.st);
    JumpSteps(t, p, origin, c.pc, m.st, r, r, 0);
    Aligned(p, origin, i.target);
    NextAddress(t, p, origin, c.pc);
    assert |Body(t, i, next, dest)| == 2 && |Tail(i, dest)| == 1 by {
      LaLength(r, dest);
    }
    var c' := Cpu(i.target, c.st.Set(i.rd, next));
    var m' := Machine(dest, m.st.Set(r, dest).Set(r, next));
    SameEffect(m.st, m.st.Sp(), t);
    RelAfterJump(t, p, origin, c, dirty, m, c', m', m.st);
    assert Steps(Code(t, p, origin), origin, m, 3) == Some(m');
  }

  /** The address behind an expansion is the next instruction's. */
  lemma NextAddress(t: Word, p: seq<Instr>, origin: Word, k: nat)
    requires Program(t, p, origin) && k < |p|
    ensures Address(p, origin, k + 1) == Address(p, origin, k) + 4 * |ExpandAt(t, p, origin, k)|
  {
    hide Size, Expand, Legal, CodeUpTo;
    WholeCode(t, p, origin, k);
  }

  lemma JumpRegStep(t: Word, p: seq<Instr>, origin: Word, c: Cpu, dirty: iset<Word>, m: Machine, k: nat)
    requires Program(t, p, origin) && Rel(t, p, origin, c, dirty, m)
    requires c.pc < |p| && p[c.pc].JumpReg? && Allowed(p[c.pc], c.st, dirty, t)
    requires k <= |p| && Address(p, origin, k) == EvenTarget(c.st.Get(p[c.pc].rs1) + p[c.pc].off)
    ensures var i := p[c.pc];
      var c' := Cpu(k, c.st.Set(i.rd, Address(p, origin, c.pc + 1)));
      exists n: nat, m': Machine ::
        Steps(Code(t, p, origin), origin, m, n) == Some(m') && Rel(t, p, origin, c', DirtyAfter(i, c.st, dirty, t), m')
  {
    hide Size, Code, Run, Steps, Tables, At, Address, EvenTarget, Wrap;
    var i, next := p[c.pc], Address(p, origin, c.pc + 1);
    RunNone(m.st);
    JumpSteps(t, p, origin, c.pc, m.st, i.rd, i.rs1, i.off);
    NextAddress(t, p, origin, c.pc);
    assert m.st.Get(i.rs1) == c.st.Get(i.rs1);
    var c', m' := Cpu(k, c.st.Set(i.rd, next)), Machine(Address(p, origin, k), m.st.Set(i.rd, next));
    SameEffect(m.st, m.st.Sp(), t);
    RelAfterJump(t, p, origin, c, dirty, m, c', m', m.st);
    assert Steps(Code(t, p, origin), origin, m, 1) == Some(m');
  }

  lemma TailCallStep(t: Word, p: seq<Instr>, origin: Word, c: Cpu, dirty: iset<Word>, m: Machine)
    requires Program(t, p, origin) && Rel(t, p, origin, c, dirty, m)
    requires c.pc < |p| && p[c.pc].TailCall? && Allowed(p[c.pc], c.st, dirty, t)
    ensures var i := p[c.pc];
      exists n: nat, m': Machine ::
        Steps(Code(t, p, origin), origin, m, n) == Some(m') && Rel(t, p, origin, Cpu(i.target, c.st), DirtyAfter(i, c.st, dirty, t), m')
  {
    hide Size, Code, Run, Steps, Tables, At, Address, EvenTarget, La, Wrap;
    var i := p[c.pc];
    var dest := Address(p, origin, i.target);
    LaOk(TP, dest, m.st);
    JumpSteps(t, p, origin, c.pc, m.st, X0, TP, 0);
    Aligned(p, origin, i.target);
    var m' := Machine(dest, m.st.Set(TP, dest));
    SameEffect(m.st, m.st.Sp(), t);
    RelAfterJump(t, p, origin, c, dirty, m, Cpu(i.target, c.st), m', m.st);
    assert Steps(Code(t, p, origin), origin, m, |La(TP, dest)| + 1) == Some(m');
  }

  /** Every step of the program is some number of steps of its expansion. */
  lemma StepOk(t: Word, p: seq<Instr>, origin: Word, c: Cpu, dirty: iset<Word>, m: Machine)
    requires Program(t, p, origin) && Rel(t, p, origin, c, dirty, m)
    requires c.pc < |p| && Allowed(p[c.pc], c.st, dirty, t)
    requires SourceStep(p, Labels(p, origin), c).Some?
    ensures exists n: nat, m': Machine ::
      Steps(Code(t, p, origin), origin, m, n) == Some(m')
      && Rel(t, p, origin, SourceStep(p, Labels(p, origin), c).value, DirtyAfter(p[c.pc], c.st, dirty, t), m')
  {
    hide Size, Code, Steps, Address, Rel, Legal, Holds, Allowed, DirtyAfter, EvenTarget, Source;
    match p[c.pc]
    case Branch(_, _, _, _) => BranchStep(t, p, origin, c, dirty, m);
    case Jump(_, _) => JumpStep(t, p, origin, c, dirty, m);
    case JumpReg(_, _, _) =>
      var c' := SourceStep(p, Labels(p, origin), c).value;
      JumpRegStep(t, p, origin, c, dirty, m, c'.pc);
    case TailCall(_) => TailCallStep(t, p, origin, c, dirty, m);
    case _ =>
      StraightStep(t, p, origin, c, dirty, m);
      var r := Steps(Code(t, p, origin), origin, m, Size(p[c.pc]));
      assert Steps(Code(t, p, origin), origin, m, Size(p[c.pc])) == Some(r.value);
  }

  /** `n` steps of the program; None if it stops or jumps out before. */
  ghost function SourceRun(p: seq<Instr>, addr: seq<Word>, c: Cpu, n: nat): Option<Cpu>
    requires |addr| == |p| + 1
    decreases n
  {
    if n == 0 then Some(c)
    else
      match SourceStep(p, addr, c)
      case None => None
      case Some(c') => SourceRun(p, addr, c', n - 1)
  }

  /** The program respects the conditions at each of `n` steps. */
  ghost predicate Disciplined(t: Word, p: seq<Instr>, addr: seq<Word>, c: Cpu, dirty: iset<Word>, n: nat)
    requires |addr| == |p| + 1
    decreases n
  {
    n == 0 || c.pc >= |p| || SourceStep(p, addr, c).None?
    || (Allowed(p[c.pc], c.st, dirty, t)
        && Disciplined(t, p, addr, SourceStep(p, addr, c).value, DirtyAfter(p[c.pc], c.st, dirty, t), n - 1))
  }

  ghost function DirtyRun(t: Word, p: seq<Instr>, addr: seq<Word>, c: Cpu, dirty: iset<Word>, n: nat): iset<Word>
    requires |addr| == |p| + 1
    decreases n
  {
    if n == 0 || c.pc >= |p| || SourceStep(p, addr, c).None? then dirty
    else DirtyRun(t, p, addr, SourceStep(p, addr, c).value, DirtyAfter(p[c.pc], c.st, dirty, t), n - 1)
  }

  lemma StepTaken(t: Word, p: seq<Instr>, origin: Word, c: Cpu, dirty: iset<Word>, m: Machine) returns (n: nat, m': Machine)
    requires Program(t, p, origin) && Rel(t, p, origin, c, dirty, m)
    requires c.pc < |p| && Allowed(p[c.pc], c.st, dirty, t)
    requires SourceStep(p, Labels(p, origin), c).Some?
    ensures Steps(Code(t, p, origin), origin, m, n) == Some(m')
    ensures Rel(t, p, origin, SourceStep(p, Labels(p, origin), c).value, DirtyAfter(p[c.pc], c.st, dirty, t), m')
  {
    hide Code, Steps, Rel, Allowed, DirtyAfter, SourceStep, Labels;
    StepOk(t, p, origin, c, dirty, m);
    n, m' :| Steps(Code(t, p, origin), origin, m, n) == Some(m')
      && Rel(t, p, origin, SourceStep(p, Labels(p, origin), c).value, DirtyAfter(p[c.pc], c.st, dirty, t), m');
  }

  lemma {:induction false} RunTaken(t: Word, p: seq<Instr>, origin: Word, c: Cpu, dirty: iset<Word>, m: Machine, n: nat)
    returns (k: nat, m': Machine)
    requires Program(t, p, origin) && Rel(t, p, origin, c, dirty, m)
    requires SourceRun(p, Labels(p, origin), c, n).Some?
    requires Disciplined(t, p, Labels(p, origin), c, dirty, n)
    ensures Steps(Code(t, p, origin), origin, m, k) == Some(m')
    ensures Rel(t, p, origin, SourceRun(p, Labels(p, origin), c, n).value, DirtyRun(t, p, Labels(p, origin), c, dirty, n), m')
    decreases n
  {
    hide Code, Steps, Rel, Allowed, DirtyAfter, SourceStep, Labels;
    var addr, code := Labels(p, origin), Code(t, p, origin);
    if n == 0 {
      StepsNone(code, origin, m);
      k, m' := 0, m;
    } else {
      PcInside(p, addr, c);
      var j, m1 := StepTaken(t, p, origin, c, dirty, m);
      k, m' := RunTaken(t, p, origin, SourceStep(p, addr, c).value, DirtyAfter(p[c.pc], c.st, dirty, t), m1, n - 1);
      StepsAdd(code, origin, m, j, k);
      k := j + k;
    }
  }

  /** Every run of a program is a run of its expansion: it reaches the same instruction
      with the same registers, tp and gp aside, and the same memory outside the bytes
      that have become dirty on the way. */
  lemma ExpansionRuns(t: Word, p: seq<Instr>, origin: Word, c: Cpu, dirty: iset<Word>, m: Machine, n: nat)
    requires Program(t, p, origin) && Rel(t, p, origin, c, dirty, m)
    requires SourceRun(p, Labels(p, origin), c, n).Some?
    requires Disciplined(t, p, Labels(p, origin), c, dirty, n)
    ensures exists k: nat, m': Machine ::
      Steps(Code(t, p, origin), origin, m, k) == Some(m')
      && Rel(t, p, origin, SourceRun(p, Labels(p, origin), c, n).value, DirtyRun(t, p, Labels(p, origin), c, dirty, n), m')
  {
    hide Code, Steps, Rel, SourceRun, DirtyRun, Disciplined, Labels;
    var k, m' := RunTaken(t, p, origin, c, dirty, m, n);
    assert Steps(Code(t, p, origin), origin, m, k) == Some(m');
  }

  lemma StepsNone(code: seq<Base>, origin: Word, m: Machine)
    ensures Steps(code, origin, m, 0) == Some(m)
  {
  }

  lemma PcInside(p: seq<Instr>, addr: seq<Word>, c: Cpu)
    requires |addr| == |p| + 1 && SourceStep(p, addr, c).Some?
    ensures c.pc < |p|
  {
  }

  /** A program and its expansion start related, with every byte of memory the same. */
  lemma StartRelated(t: Word, p: seq<Instr>, origin: Word, s: State)
    requires Program(t, p, origin) && Ready(s, t)
    ensures Rel(t, p, origin, Cpu(0, s), iset{}, Machine(origin, s))
  {
    hide Size, Legal, Tables, At;
  }

  /** When the program is at its end, so is the expansion. */
  lemma EndTogether(t: Word, p: seq<Instr>, origin: Word, c: Cpu, dirty: iset<Word>, m: Machine)
    requires Program(t, p, origin) && Rel(t, p, origin, c, dirty, m) && c.pc == |p|
    ensures Step(Code(t, p, origin), origin, m) == None
  {
    hide Size, CodeUpTo, Legal;
    CodeLength(t, p, origin, |p|);
  }
}
