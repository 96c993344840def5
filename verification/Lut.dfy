/** The look-up tables: the file written by the generator, and the read-only data
    section in which the macros address it. */
module Lut {
  import opened Basics
  import opened Bits
  import opened RvMachine
  import opened Shifts

  datatype Table = And8 | Or8 | Xor8 | Sll8 | Srl8 | Sra8 {
    function Rows(): nat { if And8? || Or8? || Xor8? then 256 else 32 }

    function EntrySize(): (n: nat)
      ensures n == 1 || n == 4
    {
      if And8? || Or8? || Xor8? then 1 else 4
    }

    function Size(): nat { if And8? || Or8? || Xor8? then 0x1_0000 else 0x8000 }

    /** Where entry `n` starts in the table. */
    function Place(n: nat): nat { if EntrySize() == 1 then n else 4 * n }

    /** Where the table starts in the file. */
    function Offset(): nat
    {
      match this
      case And8 => 0
      case Or8 => 0x1_0000
      case Xor8 => 0x2_0000
      case Sll8 => 0x3_0000
      case Srl8 => 0x3_8000
      case Sra8 => 0x4_0000
    }

    /** The entry in row `j`, column `i`. */
    function Entry(j: nat, i: Byte): Word
      requires j < Rows()
    {
      match this
      case And8 => Pow2Eight(); BitOp(And, 8, j, i)
      case Or8 => Pow2Eight(); BitOp(Or, 8, j, i)
      case Xor8 => Pow2Eight(); BitOp(Xor, 8, j, i)
      case Sll8 => Sll(i, j)
      case Srl8 => Srl(0x100_0000 * i, j)
      case Sra8 => Sra(0x100_0000 * i, j)
    }

    /** Byte `k` of the table: entries row by row, each low byte first. */
    function ByteAt(k: nat): Byte
      requires k < Size()
    {
      if EntrySize() == 1 then ByteOf(Entry(k / 0x100, k % 0x100), 0)
      else ByteOf(Entry(k / 0x400, k / 4 % 0x100), k % 4)
    }
  }

  const LUT_SIZE: nat := 0x4_8000

  /** Byte `k` of the generated file. */
  function LutByte(k: nat): Byte
    requires k < LUT_SIZE
  {
    if k < 0x1_0000 then And8.ByteAt(k)
    else if k < 0x2_0000 then Or8.ByteAt(k - 0x1_0000)
    else if k < 0x3_0000 then Xor8.ByteAt(k - 0x2_0000)
    else if k < 0x3_8000 then Sll8.ByteAt(k - 0x3_0000)
    else if k < 0x4_0000 then Srl8.ByteAt(k - 0x3_8000)
    else Sra8.ByteAt(k - 0x4_0000)
  }

  /** The generator's loop over one table, with one write for each entry. */
  method GenTable(t: Table) returns (out: seq<Byte>)
    ensures |out| == t.Size()
    ensures forall k :: 0 <= k < |out| ==> out[k] == t.ByteAt(k)
  {
    out := [];
    for j := 0 to t.Rows()
      invariant |out| == t.Place(0x100 * j)
      invariant forall k :: 0 <= k < |out| ==> out[k] == t.ByteAt(k)
    {
      for i := 0 to 0x100
        invariant |out| == t.Place(0x100 * j + i)
        invariant forall k :: 0 <= k < |out| ==> out[k] == t.ByteAt(k)
      {
        hide Table.Place, Table.ByteAt, Table.EntrySize;
        var bytes := WriteEntry(t, j, i);
        out := out + bytes;
      }
    }
  }

  /** One write: the entry, low byte first. */
  method WriteEntry(t: Table, j: nat, i: Byte) returns (bytes: seq<Byte>)
    requires j < t.Rows()
    ensures t.Place(0x100 * j + i + 1) == t.Place(0x100 * j + i) + |bytes| <= t.Size()
    ensures t.Place(0) == 0 && t.Place(0x100 * t.Rows()) == t.Size()
    ensures forall c :: 0 <= c < |bytes| ==> bytes[c] == t.ByteAt(t.Place(0x100 * j + i) + c)
  {
    hide *;
    var res := t.Entry(j, i);
    EntryBytes(t, j, i, 0);
    if t.EntrySize() == 1 {
      bytes := [ByteOf(res, 0)];
    } else {
      EntryBytes(t, j, i, 1);
      EntryBytes(t, j, i, 2);
      EntryBytes(t, j, i, 3);
      bytes := [ByteOf(res, 0), ByteOf(res, 1), ByteOf(res, 2), ByteOf(res, 3)];
    }
  }

  lemma PlaceTimes(t: Table, n: nat)
    ensures t.Place(n) == n * t.EntrySize()
  {
  }

  /** The row, the column and the byte that a place in a table comes from. */
  lemma EntryIndex(j: nat, i: Byte, c: int)
    requires 0 <= c < 4
    ensures (0x100 * j + i) / 0x100 == j && (0x100 * j + i) % 0x100 == i
    ensures var k := 4 * (0x100 * j + i) + c; k % 4 == c && k / 4 % 0x100 == i && k / 0x400 == j
  {
    var k := 4 * (0x100 * j + i) + c;
    assert k / 4 == 0x100 * j + i;
  }

  lemma EntryBytes(t: Table, j: nat, i: Byte, c: int)
    requires j < t.Rows() && 0 <= c < t.EntrySize()
    ensures t.Place(0) == 0 && t.Place(0x100 * t.Rows()) == t.Size()
    ensures t.Place(0x100 * j + i + 1) == t.Place(0x100 * j + i) + t.EntrySize() <= t.Size()
    ensures t.ByteAt(t.Place(0x100 * j + i) + c) == ByteOf(t.Entry(j, i), c)
  {
    hide ByteOf, Table.Entry;
    EntryIndex(j, i, c);
  }

  /** The generator: six tables, one after the other. */
  method GenLut() returns (file: seq<Byte>)
    ensures |file| == LUT_SIZE
    ensures forall k :: 0 <= k < LUT_SIZE ==> file[k] == LutByte(k)
  {
    hide Table.Entry, Table.ByteAt;
    var t0 := GenTable(And8);
    var t1 := GenTable(Or8);
    var t2 := GenTable(Xor8);
    var t3 := GenTable(Sll8);
    var t4 := GenTable(Srl8);
    var t5 := GenTable(Sra8);
    file := t0 + t1 + t2 + t3 + t4 + t5;
  }

  lemma LutEntry(t: Table, j: nat, i: Byte, c: int)
    requires j < t.Rows() && 0 <= c < t.EntrySize()
    ensures var k := t.Offset() + (0x100 * j + i) * t.EntrySize() + c;
      k < LUT_SIZE && LutByte(k) == ByteOf(t.Entry(j, i), c)
  {
    hide Table.Entry, Table.ByteAt;
    EntryBytes(t, j, i, c);
    PlaceTimes(t, 0x100 * j + i);
  }

  lemma LutWordEntry(t: Table, j: nat, i: Byte, c: int)
    requires t in {Sll8, Srl8, Sra8} && j < 32 && 0 <= c < 4
    ensures var k := t.Offset() + 0x400 * j + 4 * i + c;
      k < LUT_SIZE && LutByte(k) == ByteOf(t.Entry(j, i), c)
  {
    hide LutByte, Table.Entry, ByteOf;
    LutEntry(t, j, i, c);
    assert (0x100 * j + i) * t.EntrySize() == 0x400 * j + 4 * i;
  }

  // The read-only data section: where the assembler puts each small table, and the
  // generated file after them at the next multiple of 256.
  const CHECK_SAME: nat := 0
  const SAME_RESULT: nat := 0x100
  const CHECK_ZERO: nat := 0x108
  const SLT1: nat := 0x208
  const SLTU1: nat := 0x210
  const OR1: nat := 0x218
  const LUT: nat := 0x300
  const SECTION: nat := 0x4_8300

  /** Byte `k` of the section; the first 256 bytes are scratch that `seq` writes. */
  function SectionByte(k: nat): Byte
    requires k < SECTION
  {
    if k < SAME_RESULT then 0
    else if k < CHECK_ZERO then (if k == SAME_RESULT then 1 else 0)
    else if k < SLT1 then (if k == CHECK_ZERO then 0 else 1)
    else if k < SLTU1 then [0, 1, 0, 0, 1, 1, 0, 1][k - SLT1]
    else if k < OR1 then [0, 1, 1, 1, 0, 0, 0, 1][k - SLTU1]
    else if k < OR1 + 4 then [0, 1, 1, 1][k - OR1]
    else if k < LUT then 0
    else LutByte(k - LUT)
  }
}
