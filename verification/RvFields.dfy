/** Every macro is straight-line code whose constants fit their instructions. */
module RvFields {
  import opened Basics
  import opened RvMachine
  import opened Lut
  import opened RvMacros
  import opened Rv32
  import opened RvExpand

  /** Straight-line code, and code whose constants fit the twelve and twenty bits that an
      instruction has for them. */
  predicate Jumpless(code: seq<Base>)
  {
    forall b :: b in code ==> !b.Jalr?
  }

  predicate Fits12(x: int)
  {
    -0x800 <= x < 0x800
  }

  predicate Encodes(b: Base)
  {
    match b
    case Add(_, _, _) => true
    case Addi(_, _, imm) => Fits12(imm)
    case Lui(_, hi) => 0 <= hi < 0x10_0000
    case Lw(_, _, off) => Fits12(off)
    case Lbu(_, _, off) => Fits12(off)
    case Sw(_, _, off) => Fits12(off)
    case Sb(_, _, off) => Fits12(off)
    case Jalr(_, _, off) => Fits12(off)
  }

  predicate Encodable(code: seq<Base>)
  {
    forall b :: b in code ==> Encodes(b)
  }

  predicate Plain(code: seq<Base>)
  {
    Jumpless(code) && Encodable(code)
  }

  lemma Joined(a: seq<Base>, b: seq<Base>)
    requires Plain(a) && Plain(b)
    ensures Plain(a + b)
  {
  }

  lemma Joined3(a: seq<Base>, b: seq<Base>, c: seq<Base>)
    requires Plain(a) && Plain(b) && Plain(c)
    ensures Plain(a + b + c)
  {
    hide Plain;
    Joined(a, b);
    Joined(a + b, c);
  }

  lemma Joined4(a: seq<Base>, b: seq<Base>, c: seq<Base>, d: seq<Base>)
    requires Plain(a) && Plain(b) && Plain(c) && Plain(d)
    ensures Plain(a + b + c + d)
  {
    hide Plain;
    Joined3(a, b, c);
    Joined(a + b + c, d);
  }

  lemma LaPlain(r: Reg, a: Word)
    ensures Plain(La(r, a))
  {
  }

  lemma GetBytePlain(rd: Reg, rs1: Reg, b: int)
    requires 0 <= b < 4
    ensures Plain(GetByte(rd, rs1, b))
  {
  }

  lemma {:induction false} RepeatPlain(i: Base, n: nat)
    requires !i.Jalr? && Encodes(i)
    ensures Plain(Repeat(i, n))
  {
    if n > 0 {
      RepeatPlain(i, n - 1);
    }
  }

  lemma ShPlain(rs: Reg, base: Reg, off: int)
    requires Fits12(off) && Fits12(off + 1)
    ensures Plain(Sh(rs, base, off))
  {
  }

  lemma {:induction false} SlliPlain(rd: Reg, rs1: Reg, imm: nat)
    ensures Plain(Slli(rd, rs1, imm))
    decreases imm
  {
    hide Sh, Repeat;
    if imm >= 24 {
      SlliPlain(rd, rd, imm - 24);
    } else if imm >= 16 {
      ShPlain(rs1, SP, VAR_A + 2);
      SlliPlain(rd, rd, imm - 16);
    } else if imm > 0 {
      RepeatPlain(Add(rd, rd, rd), imm - 1);
    }
  }

  lemma MsbPlain(rd: Reg, rs1: Reg)
    ensures Plain(Msb(rd, rs1))
  {
    hide Plain, GetByte, Slli;
    GetBytePlain(rd, rs1, 3);
    SlliPlain(rd, rd, 1);
    GetBytePlain(rd, rd, 1);
    Joined3(GetByte(rd, rs1, 3), Slli(rd, rd, 1), GetByte(rd, rd, 1));
  }

  lemma NotBytePlain(b: int)
    requires 0 <= b < 4
    ensures Plain(NotByte(b))
  {
  }

  lemma NotPlain(t: Word, rd: Reg, rs1: Reg)
    ensures Plain(RvMacros.Not(t, rd, rs1))
  {
    hide La, NotByte, Wrap;
    NotBytePlain(3);
    NotBytePlain(2);
    NotBytePlain(1);
    NotBytePlain(0);
    Joined4(NotByte(3), NotByte(2), NotByte(1), NotByte(0));
    LaPlain(TP, Wrap(t + LUT + Xor8.Offset() + 0xff * 0x100));
  }

  lemma SubPlain(t: Word, rd: Reg, rs1: Reg, rs2: Reg)
    ensures Plain(RvMacros.Sub(t, rd, rs1, rs2))
  {
    hide RvMacros.Not;
    NotPlain(t, TP, rs2);
  }

  lemma SltSavePlain(rs1: Reg, rs2: Reg)
    ensures Plain(SltSave(rs1, rs2))
  {
  }

  lemma SltIndexPlain(t: Word)
    ensures Plain(SltIndex(t))
  {
    hide Plain, Msb, Slli, RvMacros.Sub;
    MsbPlain(GP, S0);
    MsbPlain(TP, S1);
    MsbPlain(TP, TP);
    SlliPlain(GP, GP, 1);
    SubPlain(t, TP, S0, S1);
    AddPlain();
    Joined(Msb(GP, S0), Slli(GP, GP, 1));
    Joined3(Msb(TP, S1), [Add(GP, GP, TP)], Slli(GP, GP, 1));
    Joined3(RvMacros.Sub(t, TP, S0, S1), Msb(TP, TP), [Add(GP, GP, TP)]);
    Joined3(Msb(GP, S0) + Slli(GP, GP, 1), Msb(TP, S1) + [Add(GP, GP, TP)] + Slli(GP, GP, 1),
            RvMacros.Sub(t, TP, S0, S1) + Msb(TP, TP) + [Add(GP, GP, TP)]);
  }

  lemma AddPlain()
    ensures Plain([Add(GP, GP, TP)])
  {
  }

  lemma SltFetchPlain(t: Word, table: nat, rd: Reg)
    ensures Plain(SltFetch(t, table, rd))
  {
    hide La, Wrap;
    LaPlain(TP, Wrap(t + table));
  }

  lemma SltPlain(t: Word, table: nat, rd: Reg, rs1: Reg, rs2: Reg)
    ensures Plain(SltTemplate(t, table, rd, rs1, rs2))
  {
    hide Plain, SltSave, SltIndex, SltFetch;
    SltSavePlain(rs1, rs2);
    SltIndexPlain(t);
    SltFetchPlain(t, table, rd);
    Joined3(SltSave(rs1, rs2), SltIndex(t), SltFetch(t, table, rd));
  }

  lemma LogicBytePlain(lut: Reg, b: int)
    requires 0 <= b < 4
    ensures Plain(LogicByte(lut, b))
  {
  }

  lemma LogicPlain(t: Word, table: Table, rd: Reg, rs1: Reg, rs2: Reg)
    ensures Plain(Logic(t, table, rd, rs1, rs2))
  {
    hide La, LogicByte, Wrap;
    LogicBytePlain(rd, 3);
    LogicBytePlain(rd, 2);
    LogicBytePlain(rd, 1);
    LogicBytePlain(rd, 0);
    Joined4(LogicByte(rd, 3), LogicByte(rd, 2), LogicByte(rd, 1), LogicByte(rd, 0));
    LaPlain(rd, Wrap(t + LUT + table.Offset()));
  }

  lemma CheckSamePlain(seen: Reg, rd: Reg, b: int)
    requires 0 <= b < 4
    ensures Plain(CheckSame(seen, rd, b))
  {
  }

  lemma SeqCountPlain()
    ensures Plain(SeqCount())
  {
    hide CheckSame;
    CheckSamePlain(S0, GP, 0);
    CheckSamePlain(S0, S1, 1);
    CheckSamePlain(S0, S1, 2);
    CheckSamePlain(S0, S1, 3);
  }

  lemma SeqPlain(t: Word, rd: Reg, rs1: Reg, rs2: Reg)
    ensures Plain(Seq(t, rd, rs1, rs2))
  {
    hide La, SeqCount, Wrap;
    LaPlain(S0, Wrap(t + Lut.CHECK_SAME));
    LaPlain(TP, Wrap(t + SAME_RESULT));
    SeqCountPlain();
  }

  lemma CheckZeroPlain(table: Reg, rd: Reg, b: int)
    requires 0 <= b < 4
    ensures Plain(RvMacros.CheckZero(table, rd, b))
  {
  }

  lemma SeqzCountPlain()
    ensures Plain(SeqzCount())
  {
    hide RvMacros.CheckZero;
    CheckZeroPlain(S0, GP, 0);
    CheckZeroPlain(S0, TP, 1);
    CheckZeroPlain(S0, TP, 2);
    CheckZeroPlain(S0, TP, 3);
  }

  lemma SeqzPlain(t: Word, rd: Reg, rs1: Reg)
    ensures Plain(Seqz(t, rd, rs1))
  {
    hide La, SeqzCount, Wrap;
    LaPlain(S0, Wrap(t + CHECK_ZERO));
    LaPlain(TP, Wrap(t + SAME_RESULT));
    SeqzCountPlain();
  }

  lemma ShamtPlain(t: Word, rd: Reg, rs1: Reg)
    ensures Plain(GetShamt(t, rd, rs1))
  {
    hide La, Wrap;
    LaPlain(TP, Wrap(t + LUT + And8.Offset() + 0x1f * 0x100));
  }

  lemma ShiftBytePlain(base: Reg, b: int)
    requires 0 <= b < 4
    ensures Plain(ShiftByte(base, b))
  {
    hide Slli;
    SlliPlain(TP, TP, 2);
  }

  lemma RowPlain(t: Word, table: Table, rs2: Reg)
    ensures Plain(ShiftRow(t, table, rs2))
  {
    hide La, GetShamt, Slli, Wrap;
    ShamtPlain(t, S0, rs2);
    SlliPlain(S0, S0, 2);
    LaPlain(TP, Wrap(t + LUT + table.Offset()));
  }

  lemma SllBytesPlain()
    ensures Plain(SllBytes())
  {
    hide ShiftByte, Sh, Slli;
    ShiftBytePlain(S0, 3);
    ShiftBytePlain(S0, 2);
    ShPlain(TP, SP, VAR_B + 2);
    ShiftBytePlain(S0, 1);
    SlliPlain(TP, TP, 8);
    ShiftBytePlain(S0, 0);
  }

  lemma SllPlain(t: Word, rd: Reg, rs1: Reg, rs2: Reg)
    ensures Plain(RvMacros.Sll(t, rd, rs1, rs2))
  {
    hide ShiftRow, SllBytes;
    RowPlain(t, Sll8, rs2);
    SllBytesPlain();
  }

  lemma SrlBytesPlain()
    ensures Plain(SrlBytes())
  {
    hide ShiftByte;
    ShiftBytePlain(S0, 2);
    ShiftBytePlain(S0, 1);
    ShiftBytePlain(S0, 0);
  }

  lemma SrlTopPlain(rd: Reg, arith: bool)
    ensures Plain(SrlTop(rd, arith))
  {
    hide La, ShiftByte, Wrap;
    LaPlain(TP, Wrap(Sra8.Offset() - Srl8.Offset()));
    ShiftBytePlain(S0, 3);
  }

  lemma ShiftRightPlain(t: Word, rd: Reg, rs1: Reg, rs2: Reg, arith: bool)
    ensures Plain(ShiftRight(t, rd, rs1, rs2, arith))
  {
    hide ShiftRow, SrlBytes, SrlTop;
    RowPlain(t, Srl8, rs2);
    SrlBytesPlain();
    SrlTopPlain(rd, arith);
  }

  lemma ShiftRightImmPlain(t: Word, rd: Reg, rs1: Reg, imm: nat, arith: bool)
    ensures Plain(ShiftRightImm(t, rd, rs1, imm, arith))
  {
    hide La, Slli, GetByte, SrlBytes, SrlTop, Wrap;
    LaPlain(TP, Wrap(t + LUT + Sra8.Offset() + imm * 0x400));
    LaPlain(S0, Wrap(t + LUT + Srl8.Offset() + imm * 0x400));
    SlliPlain(rd, rd, 2);
    GetBytePlain(rd, rs1, 3);
    SrlBytesPlain();
    SrlTopPlain(rd, arith);
  }

  lemma LoadPlain(t: Word, width: Width, rd: Reg, base: Reg, off: int)
    requires Fits12(off) && (width in {H, HU} ==> Fits12(off + 1))
    ensures Plain(ExpandLoad(t, width, rd, base, off))
  {
    hide ShiftRightImm;
    ShiftRightImmPlain(t, rd, rd, 24, true);
    ShiftRightImmPlain(t, GP, GP, 16, true);
  }

  lemma StorePlain(width: Width, rs: Reg, base: Reg, off: int)
    requires Fits12(off) && (width in {H, HU} ==> Fits12(off + 1))
    ensures Plain(ExpandStore(width, rs, base, off))
  {
    hide Sh;
    if width in {H, HU} {
      ShPlain(rs, base, off);
    }
  }

  lemma ResolvePlain(high: Word, low: Word)
    ensures Plain(BranchResolve(high, low))
  {
    hide La, Slli;
    LaPlain(GP, high);
    LaPlain(GP, low);
    SlliPlain(TP, TP, 2);
  }

  lemma NotPositivePlain(t: Word, rs: Reg)
    ensures Plain(NotPositive(t, rs))
  {
    hide La, Msb, Wrap;
    MsbPlain(GP, rs);
    MsbPlain(TP, TP);
    LaPlain(TP, Wrap(t + OR1));
  }

  lemma AluPlain(t: Word, op: Alu, rd: Reg, rs1: Reg, rs2: Reg)
    ensures Plain(ExpandAlu(t, op, rd, rs1, rs2))
  {
    hide RvMacros.Sub, SltTemplate, Logic, RvMacros.Sll, ShiftRight;
    match op
    case ADD =>
    case SUB => SubPlain(t, rd, rs1, rs2);
    case SLT => SltPlain(t, SLT1, rd, rs1, rs2);
    case SLTU => SltPlain(t, SLTU1, rd, rs1, rs2);
    case AND => LogicPlain(t, And8, rd, rs1, rs2);
    case OR => LogicPlain(t, Or8, rd, rs1, rs2);
    case XOR => LogicPlain(t, Xor8, rd, rs1, rs2);
    case SLL => SllPlain(t, rd, rs1, rs2);
    case SRL => ShiftRightPlain(t, rd, rs1, rs2, false);
    case SRA => ShiftRightPlain(t, rd, rs1, rs2, true);
  }

  lemma ImmPlain(t: Word, op: Alu, rd: Reg, rs1: Reg, imm: int)
    requires op in {SLL, SRL, SRA} || Fits12(imm)
    ensures Plain(ExpandImm(t, op, rd, rs1, imm))
  {
    hide Slli, ShiftRightImm, ExpandAlu;
    AluPlain(t, op, rd, rs1, TP);
    SlliPlain(rd, rs1, Amount(imm));
    ShiftRightImmPlain(t, rd, rs1, Amount(imm), false);
    ShiftRightImmPlain(t, rd, rs1, Amount(imm), true);
  }

  lemma UnaryPlain(t: Word, un: Pseudo, rd: Reg, rs1: Reg)
    ensures Plain(ExpandUnary(t, un, rd, rs1))
  {
    hide RvMacros.Not, RvMacros.Sub, Seqz, SltTemplate, Msb;
    match un
    case NOT => NotPlain(t, rd, rs1);
    case NEG => SubPlain(t, rd, X0, rs1);
    case SEQZ => SeqzPlain(t, rd, rs1);
    case SNEZ => SltPlain(t, SLTU1, rd, X0, rs1);
    case SLTZ => MsbPlain(rd, rs1);
    case SGTZ => SltPlain(t, SLT1, rd, X0, rs1);
  }

  lemma FlagPlain(t: Word, cond: Cond, rs1: Reg, rs2: Reg)
    ensures Plain(Flag(t, cond, rs1, rs2))
  {
    hide Plain, Seqz, Seq, Msb, NotPositive, SltTemplate;
    SeqzPlain(t, TP, rs1);
    SeqzPlain(t, TP, rs2);
    SeqPlain(t, TP, rs1, rs2);
    MsbPlain(TP, rs1);
    NotPositivePlain(t, rs2);
    SltPlain(t, SLT1, TP, rs1, rs2);
    SltPlain(t, SLTU1, TP, rs1, rs2);
  }

  lemma ChoicePlain(takes: bool, next: Word, dest: Word)
    ensures Plain(Choice(takes, next, dest))
  {
    hide BranchResolve;
    ResolvePlain(dest, next);
    ResolvePlain(next, dest);
  }

  /** The body of an expansion is straight-line code. */
  lemma BodyPlain(t: Word, i: Instr, next: Word, dest: Word)
    requires Legal(i)
    ensures Plain(Body(t, i, next, dest))
  {
    hide Plain, La, Choice, ExpandAlu, ExpandImm, ExpandUnary, ExpandLoad, ExpandStore, Flag;
    match i
    case RType(op, rd, rs1, rs2) => AluPlain(t, op, rd, rs1, rs2);
    case IType(op, rd, rs1, imm) => ImmPlain(t, op, rd, rs1, imm);
    case Unary(un, rd, rs1) => UnaryPlain(t, un, rd, rs1);
    case LoadUpper(rd, hi) => UpperPlain(rd, hi);
    case LoadAddress(rd, symbol) => LaPlain(rd, symbol);
    case Load(width, rd, base, off) => LoadPlain(t, width, rd, base, off);
    case Store(width, rs, base, off) => StorePlain(width, rs, base, off);
    case Branch(cond, rs1, rs2, _) =>
      FlagPlain(t, cond, rs1, rs2);
      ChoicePlain(FlagTakes(cond, rs1, rs2), next, dest);
      Joined(Flag(t, cond, rs1, rs2), Choice(FlagTakes(cond, rs1, rs2), next, dest));
    case Jump(rd, _) => LaPlain(if rd == X0 then TP else rd, dest);
    case JumpReg(_, _, _) => NonePlain();
    case TailCall(_) => LaPlain(TP, dest);
  }

  lemma UpperPlain(rd: Reg, hi: int)
    requires 0 <= hi < 0x10_0000
    ensures Plain([Lui(rd, hi)])
  {
  }

  lemma NonePlain()
    ensures Plain([])
  {
  }

  lemma TailEncodes(i: Instr, dest: Word)
    requires Legal(i)
    ensures Encodable(Tail(i, dest))
  {
    hide La;
    LaPlain(RA, dest);
  }

  /** The assembler can encode every instruction of a legal instruction's expansion. */
  lemma ExpandEncodes(t: Word, i: Instr, next: Word, dest: Word)
    requires Legal(i)
    ensures Encodable(Expand(t, i, next, dest))
  {
    hide Body, Tail, Legal;
    BodyPlain(t, i, next, dest);
    TailEncodes(i, dest);
  }

  /** A halfword access works on two bytes, so both offsets must fit in twelve bits; that is
      all it takes. */
  lemma HalfwordFields(t: Word, rd: Reg, rs: Reg, base: Reg, off: int)
    ensures Encodable(RvMacros.Sh(rs, base, off)) <==> Fits12(off) && Fits12(off + 1)
    ensures Encodable(Lhu(rd, base, off)) <==> Fits12(off) && Fits12(off + 1)
    ensures Encodable(Lh(t, rd, base, off)) <==> Fits12(off) && Fits12(off + 1)
  {
    hide ShiftRightImm, GetByte;
    GetBytePlain(TP, rs, 1);
    ShiftRightImmPlain(t, GP, GP, 16, true);
    assert Sb(rs, base, off) in RvMacros.Sh(rs, base, off) && Sb(TP, base, off + 1) in RvMacros.Sh(rs, base, off);
    assert Lbu(TP, base, off + 1) in Lhu(rd, base, off) && Lbu(rd, base, off) in Lhu(rd, base, off);
    assert Lbu(GP, base, off + 1) in Lh(t, rd, base, off) && Lbu(rd, base, off) in Lh(t, rd, base, off);
  }
}
