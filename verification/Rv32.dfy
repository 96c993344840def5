/** The instructions that the macros replace: RV32I without fences, system calls and
    auipc, and the usual pseudo-instructions. Jumps name the instruction they go to by
    its index; `addr` gives the code address of each index. */
module Rv32 {
  import opened Basics
  import opened RvMachine
  import opened RvCompare
  import opened RvLogic
  import opened RvAccess
  import Bits
  import Shifts

  datatype Alu = ADD | SUB | SLT | SLTU | AND | OR | XOR | SLL | SRL | SRA
  datatype Width = B | BU | H | HU | W
  datatype Cond = EQ | NE | LT | GE | LTU | GEU
  datatype Pseudo = NOT | NEG | SEQZ | SNEZ | SLTZ | SGTZ

  datatype Instr =
    | RType(op: Alu, rd: Reg, rs1: Reg, rs2: Reg)
    | IType(op: Alu, rd: Reg, rs1: Reg, imm: int)
    | Unary(un: Pseudo, rd: Reg, rs1: Reg)
    | LoadUpper(rd: Reg, hi: int)
    | LoadAddress(rd: Reg, symbol: Word)
    | Load(width: Width, rd: Reg, base: Reg, off: int)
    | Store(width: Width, rs: Reg, base: Reg, off: int)
    | Branch(cond: Cond, rs1: Reg, rs2: Reg, target: nat)
    | Jump(rd: Reg, target: nat)
    | JumpReg(rd: Reg, rs1: Reg, off: int)
    | TailCall(target: nat)

  function AluValue(op: Alu, a: Word, b: Word): Word
  {
    match op
    case ADD => Wrap(a as int + b as int)
    case SUB => Wrap(a as int - b as int)
    case SLT => Less(a, b)
    case SLTU => LessU(a, b)
    case AND => Bitwise(Bits.And, a, b)
    case OR => Bitwise(Bits.Or, a, b)
    case XOR => Bitwise(Bits.Xor, a, b)
    case SLL => Shifts.Sll(a, b % 32)
    case SRL => Shifts.Srl(a, b % 32)
    case SRA => Shifts.Sra(a, b % 32)
  }

  /** The bitwise operations on words: what each digit is, and what the digits add up to. */
  lemma BitwiseValues(a: Word, b: Word, k: nat)
    requires k < 32
    ensures AluValue(AND, a, b) / Bits.Pow2(k) % 2 == 1 <==> a / Bits.Pow2(k) % 2 == 1 && b / Bits.Pow2(k) % 2 == 1
    ensures AluValue(OR, a, b) / Bits.Pow2(k) % 2 == 1 <==> a / Bits.Pow2(k) % 2 == 1 || b / Bits.Pow2(k) % 2 == 1
    ensures AluValue(XOR, a, b) / Bits.Pow2(k) % 2 == 1 <==> a / Bits.Pow2(k) % 2 != b / Bits.Pow2(k) % 2
    ensures AluValue(OR, a, b) + AluValue(AND, a, b) == a + b
    ensures AluValue(XOR, a, b) + 2 * AluValue(AND, a, b) == a + b
  {
    hide Bits.BitOp, Bits.DigitAt, Bits.Low;
    Bits.DigitOf(32, a, b, k);
    Bits.DigitSums(32, a, b);
    WholeWord(a);
    WholeWord(b);
    WordDigit(a, k);
    WordDigit(b, k);
    WordDigit(AluValue(AND, a, b), k);
    WordDigit(AluValue(OR, a, b), k);
    WordDigit(AluValue(XOR, a, b), k);
  }

  lemma WordDigit(a: Word, k: nat)
    ensures Bits.DigitAt(a, k) == a / Bits.Pow2(k) % 2
  {
    hide Bits.High, Bits.Pow2, Bits.DigitAt;
    Bits.DigitHigh(a, k);
    Bits.HighLow(a, k);
  }

  lemma WholeWord(a: Word)
    ensures Bits.Low(a, 32) == a
  {
    hide Bits.Low, Bits.Pow2;
    Bits.Pow2Values();
    Shifts.LowSmall(a, 32);
  }

  function PseudoValue(un: Pseudo, a: Word): Word
  {
    match un
    case NOT => WORDS - 1 - a
    case NEG => Wrap(-(a as int))
    case SEQZ => if a == 0 then 1 else 0
    case SNEZ => if a == 0 then 0 else 1
    case SLTZ => if Shifts.Signed(a) < 0 then 1 else 0
    case SGTZ => if Shifts.Signed(a) > 0 then 1 else 0
  }

  function LoadValue(width: Width, m: Mem, a: int): Word
  {
    match width
    case B => SignExtend8(At(m, Wrap(a)))
    case BU => At(m, Wrap(a))
    case H => SignExtend16(HalfAt(m, Wrap(a), Wrap(a + 1)))
    case HU => HalfAt(m, Wrap(a), Wrap(a + 1))
    case W => LoadWord(m, Wrap(a))
  }

  /** Only the three widths b, h and w are stores. */
  function StoreValue(width: Width, m: Mem, a: int, v: Word): Mem
  {
    match width
    case B | BU => StoreByte(m, Wrap(a), v)
    case H | HU => m[Wrap(a) := ByteOf(v, 0)][Wrap(a + 1) := ByteOf(v, 1)]
    case W => StoreWord(m, Wrap(a), v)
  }

  /** The addresses that an access of this width touches. */
  function Touched(width: Width, a: int): set<Word>
  {
    match width
    case B | BU => {Wrap(a)}
    case H | HU => {Wrap(a), Wrap(a + 1)}
    case W => {Wrap(a), Wrap(Wrap(a) + 1), Wrap(Wrap(a) + 2), Wrap(Wrap(a) + 3)}
  }

  predicate Holds(cond: Cond, a: Word, b: Word)
  {
    match cond
    case EQ => a == b
    case NE => a != b
    case LT => Shifts.Signed(a) < Shifts.Signed(b)
    case GE => Shifts.Signed(a) >= Shifts.Signed(b)
    case LTU => a < b
    case GEU => a >= b
  }

  /** Registers and memory after an instruction that does not jump. */
  function Source(i: Instr, s: State): State
  {
    match i
    case RType(op, rd, rs1, rs2) => s.Set(rd, AluValue(op, s.regs[rs1], s.regs[rs2]))
    case IType(op, rd, rs1, imm) => s.Set(rd, AluValue(op, s.regs[rs1], Wrap(imm)))
    case Unary(un, rd, rs1) => s.Set(rd, PseudoValue(un, s.regs[rs1]))
    case LoadUpper(rd, hi) => s.Set(rd, Wrap(0x1000 * hi))
    case LoadAddress(rd, symbol) => s.Set(rd, symbol)
    case Load(width, rd, base, off) => s.Set(rd, LoadValue(width, s.mem, s.Get(base) + off))
    case Store(width, rs, base, off) => s.(mem := StoreValue(width, s.mem, s.Get(base) + off, s.regs[rs]))
    case _ => s
  }

  datatype Cpu = Cpu(pc: nat, st: State)

  /** One step; none from the end of the program, or by a computed jump to an address
      that is not an instruction's. */
  ghost function SourceStep(p: seq<Instr>, addr: seq<Word>, c: Cpu): Option<Cpu>
    requires |addr| == |p| + 1
  {
    if c.pc >= |p| then None
    else
      match p[c.pc]
      case Branch(cond, rs1, rs2, target) =>
        Some(Cpu(if Holds(cond, c.st.regs[rs1], c.st.regs[rs2]) then target else c.pc + 1, c.st))
      case Jump(rd, target) => Some(Cpu(target, c.st.Set(rd, addr[c.pc + 1])))
      case JumpReg(rd, rs1, off) =>
        var dest := EvenTarget(c.st.Get(rs1) + off);
        if k :| 0 <= k <= |p| && addr[k] == dest then Some(Cpu(k, c.st.Set(rd, addr[c.pc + 1])))
        else None
      case TailCall(target) => Some(Cpu(target, c.st))
      case i => Some(Cpu(c.pc + 1, Source(i, c.st)))
  }
}
