/** The machine the macros are expanded for: 32 registers of 32 bits, byte-addressed
    memory, and the eight base instructions. */
module RvMachine {
  import opened Basics

  const WORDS: int := 0x1_0000_0000

  type Reg = r: int | 0 <= r < 32
  type Regs = r: seq<Word> | |r| == 32 && r[0] == 0 witness seq(32, _ => 0)
  type Mem = map<Word, Byte>

  const X0: Reg := 0
  const RA: Reg := 1
  const SP: Reg := 2
  const GP: Reg := 3
  const TP: Reg := 4
  const S0: Reg := 8
  const S1: Reg := 9

  /** The 32-bit word a sum or difference of words wraps around to. */
  function Wrap(x: int): (r: Word)
    ensures 0 <= x < WORDS ==> r == x
    ensures WORDS <= x < 2 * WORDS ==> r == x - WORDS
    ensures -WORDS <= x < 0 ==> r == x + WORDS
  {
    x % 0x1_0000_0000
  }

  /** Byte `k` of a word, the least significant being byte 0. */
  function ByteOf(v: Word, k: int): Byte
    requires 0 <= k < 4
  {
    if k == 0 then v % 0x100
    else if k == 1 then v / 0x100 % 0x100
    else if k == 2 then v / 0x100 / 0x100 % 0x100
    else v / 0x100 / 0x100 / 0x100
  }

  function Pack(b0: Byte, b1: Byte, b2: Byte, b3: Byte): Word
  {
    b0 + 0x100 * b1 + 0x1_0000 * b2 + 0x100_0000 * b3
  }

  /** Memory holds 0 where nothing was stored. */
  function At(m: Mem, a: Word): Byte
  {
    if a in m then m[a] else 0
  }

  function LoadWord(m: Mem, a: Word): Word
  {
    Pack(At(m, a), At(m, Wrap(a + 1)), At(m, Wrap(a + 2)), At(m, Wrap(a + 3)))
  }

  function StoreByte(m: Mem, a: Word, v: Word): Mem
  {
    m[a := ByteOf(v, 0)]
  }

  function StoreWord(m: Mem, a: Word, v: Word): Mem
  {
    m[a := ByteOf(v, 0)][Wrap(a + 1) := ByteOf(v, 1)][Wrap(a + 2) := ByteOf(v, 2)][Wrap(a + 3) := ByteOf(v, 3)]
  }

  /** Register 0 ignores writes. */
  function SetReg(r: Regs, rd: Reg, v: Word): Regs
  {
    if rd == X0 then r else r[rd := v]
  }

  datatype State = State(regs: Regs, mem: Mem) {
    function Get(r: Reg): (v: int)
      ensures 0 <= v < WORDS
    {
      regs[r]
    }

    function Sp(): (v: int)
      ensures 0 <= v < WORDS
    {
      regs[SP]
    }

    function Set(rd: Reg, v: Word): State
    {
      this.(regs := SetReg(regs, rd, v))
    }
  }

  datatype Base =
    | Add(rd: Reg, rs1: Reg, rs2: Reg)
    | Addi(rd: Reg, rs1: Reg, imm: int)
    | Lui(rd: Reg, hi: int)
    | Lw(rd: Reg, rs1: Reg, off: int)
    | Lbu(rd: Reg, rs1: Reg, off: int)
    | Sw(rs2: Reg, rs1: Reg, off: int)
    | Sb(rs2: Reg, rs1: Reg, off: int)
    | Jalr(rd: Reg, rs1: Reg, off: int)

  /** What one instruction does to registers and memory; a jump is left to `Step`. */
  function Exec(i: Base, s: State): State
  {
    match i
    case Add(rd, rs1, rs2) => s.Set(rd, Wrap(s.Get(rs1) + s.Get(rs2)))
    case Addi(rd, rs1, imm) => s.Set(rd, Wrap(s.Get(rs1) + imm))
    case Lui(rd, hi) => s.Set(rd, Wrap(0x1000 * hi))
    case Lw(rd, rs1, off) => s.Set(rd, LoadWord(s.mem, Wrap(s.Get(rs1) + off)))
    case Lbu(rd, rs1, off) => s.Set(rd, At(s.mem, Wrap(s.Get(rs1) + off)))
    case Sw(rs2, rs1, off) => s.(mem := StoreWord(s.mem, Wrap(s.Get(rs1) + off), s.regs[rs2]))
    case Sb(rs2, rs1, off) => s.(mem := StoreByte(s.mem, Wrap(s.Get(rs1) + off), s.regs[rs2]))
    case Jalr(_, _, _) => s
  }

  /** Straight-line execution. */
  function Run(code: seq<Base>, s: State): State
  {
    if code == [] then s else Run(code[1..], Exec(code[0], s))
  }

  datatype Machine = Machine(pc: Word, st: State)

  /** One step of the machine whose code is laid out from address `origin`, four bytes
      an instruction; there is no step from an address that holds no instruction. */
  function Step(code: seq<Base>, origin: Word, m: Machine): Option<Machine>
  {
    if m.pc < origin || (m.pc - origin) % 4 != 0 || (m.pc - origin) / 4 >= |code| then None
    else
      match code[(m.pc - origin) / 4]
      case Jalr(rd, rs1, off) =>
        Some(Machine(EvenTarget(m.st.Get(rs1) + off), m.st.Set(rd, Wrap(m.pc + 4))))
      case i =>
        Some(Machine(Wrap(m.pc + 4), Exec(i, m.st)))
  }

  /** A computed jump clears the lowest bit of its target. */
  function EvenTarget(x: int): (r: Word)
    ensures r % 2 == 0 && Wrap(x) - 1 <= r <= Wrap(x)
  {
    Wrap(x) - Wrap(x) % 2
  }

  function Steps(code: seq<Base>, origin: Word, m: Machine, n: nat): Option<Machine>
    decreases n
  {
    if n == 0 then Some(m)
    else
      match Step(code, origin, m)
      case None => None
      case Some(m') => Steps(code, origin, m', n - 1)
  }

  lemma {:induction false} RunAppend(a: seq<Base>, b: seq<Base>, s: State)
    ensures Run(a + b, s) == Run(b, Run(a, s))
  {
    hide Exec;
    if a == [] {
      assert a + b == b;
    } else {
      assert (a + b)[1..] == a[1..] + b;
      RunAppend(a[1..], b, Exec(a[0], s));
    }
  }

  lemma RunCons(i: Base, code: seq<Base>, s: State)
    ensures Run([i] + code, s) == Run(code, Exec(i, s))
  {
    hide Exec;
    assert ([i] + code)[1..] == code;
  }

  lemma Run1(i: Base, s: State)
    ensures Run([i], s) == Exec(i, s)
  {
    hide Exec;
    assert [i] == [i] + [];
    RunCons(i, [], s);
  }

  lemma Run2(i: Base, j: Base, s: State)
    ensures Run([i, j], s) == Exec(j, Exec(i, s))
  {
    hide Exec, Run;
    assert [i, j] == [i] + [j];
    RunCons(i, [j], s);
    Run1(j, Exec(i, s));
  }

  lemma Run3(i: Base, j: Base, k: Base, s: State)
    ensures Run([i, j, k], s) == Exec(k, Exec(j, Exec(i, s)))
  {
    hide Exec, Run;
    assert [i, j, k] == [i] + [j, k];
    RunCons(i, [j, k], s);
    Run2(j, k, Exec(i, s));
  }

  lemma Run4(i: Base, j: Base, k: Base, l: Base, s: State)
    ensures Run([i, j, k, l], s) == Exec(l, Exec(k, Exec(j, Exec(i, s))))
  {
    hide Exec, Run;
    assert [i, j, k, l] == [i] + [j, k, l];
    RunCons(i, [j, k, l], s);
    Run3(j, k, l, Exec(i, s));
  }

  lemma Run5(i: Base, j: Base, k: Base, l: Base, m: Base, s: State)
    ensures Run([i, j, k, l, m], s) == Exec(m, Exec(l, Exec(k, Exec(j, Exec(i, s)))))
  {
    hide Exec, Run;
    assert [i, j, k, l, m] == [i] + [j, k, l, m];
    RunCons(i, [j, k, l, m], s);
    Run4(j, k, l, m, Exec(i, s));
  }

  lemma PackBytes(v: Word)
    ensures Pack(ByteOf(v, 0), ByteOf(v, 1), ByteOf(v, 2), ByteOf(v, 3)) == v
  {
    var q := v / 0x100;
    var q' := q / 0x100;
    assert v == 0x100 * q + v % 0x100 && q == 0x100 * q' + q % 0x100 && q' == 0x100 * (q' / 0x100) + q' % 0x100;
  }

  lemma BytesOfPack(b0: Byte, b1: Byte, b2: Byte, b3: Byte)
    ensures var v := Pack(b0, b1, b2, b3);
      ByteOf(v, 0) == b0 && ByteOf(v, 1) == b1 && ByteOf(v, 2) == b2 && ByteOf(v, 3) == b3
  {
    var v := Pack(b0, b1, b2, b3);
    assert v / 0x100 == b1 + 0x100 * b2 + 0x1_0000 * b3;
    assert v / 0x100 / 0x100 == b2 + 0x100 * b3;
  }
}
