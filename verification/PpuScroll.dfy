/** The scroll registers of the picture unit, kept twice: packed in one address by the old
    renderer, and as separate counters and latches by the new one. */
module PpuScroll {

  /** Fine row, vertical and horizontal name table, tile row, tile column. */
  datatype Fields = Fields(fv: bv32, v: bv32, h: bv32, vt: bv32, ht: bv32)

  function Pack(f: Fields): bv32
  {
    (f.fv << 12) | (f.v << 11) | (f.h << 10) | (f.vt << 5) | f.ht
  }

  function Unpack(a: bv32): Fields
  {
    Fields((a >> 12) & 7, (a >> 11) & 1, (a >> 10) & 1, (a >> 5) & 31, a & 31)
  }

  /** The counters in their widths. */
  predicate InRange(f: Fields)
  {
    f.fv < 8 && f.v < 2 && f.h < 2 && f.vt < 32 && f.ht < 32
  }

  function Low15(a: bv32): bv32
  {
    a & 0x7FFF
  }

  lemma PackUnpack(a: bv32)
    ensures InRange(Unpack(a)) && Pack(Unpack(a)) == Low15(a) && Unpack(Low15(a)) == Unpack(a)
  {
  }

  lemma UnpackPack(f: Fields)
    requires InRange(f)
    ensures Unpack(Pack(f)) == f && Low15(Pack(f)) == Pack(f)
  {
  }

  /** A byte as the handlers compute with it. */
  function Wide(val: bv8): bv32
  {
    val as bv32
  }

  predicate ByteSized(x: bv32)
  {
    x < 0x100
  }

  lemma WideByte(val: bv8)
    ensures ByteSized(Wide(val))
  {
  }

  /** The pending address has 15 bits. */
  predicate Small(t: bv32)
  {
    t < 0x8000
  }

  // Each operation twice: on an address and on fields.

  function TableAddress(t: bv32, x: bv32): bv32 { (t & 0xF3FF) | ((x & 3) << 10) }

  function TableFields(f: Fields, x: bv32): Fields { f.(h := x & 1, v := (x >> 1) & 1) }

  lemma TableKept(f: Fields, x: bv32)
    requires InRange(f) && ByteSized(x)
    ensures InRange(TableFields(f, x))
  {
  }

  lemma TableParts(t: bv32, x: bv32)
    requires ByteSized(x)
    ensures Unpack(TableAddress(t, x)) == TableFields(Unpack(t), x)
    ensures Small(t) ==> Small(TableAddress(t, x))
  {
  }

  function ColumnAddress(t: bv32, x: bv32): bv32 { (t & 0xFFE0) | (x >> 3) }

  function ColumnFields(f: Fields, x: bv32): Fields { f.(ht := x >> 3) }

  lemma ColumnKept(f: Fields, x: bv32)
    requires InRange(f) && ByteSized(x)
    ensures InRange(ColumnFields(f, x))
  {
  }

  lemma ColumnParts(t: bv32, x: bv32)
    requires ByteSized(x)
    ensures Unpack(ColumnAddress(t, x)) == ColumnFields(Unpack(t), x)
    ensures Small(t) ==> Small(ColumnAddress(t, x))
  {
  }

  function RowAddress(t: bv32, x: bv32): bv32 { (t & 0x8C1F) | ((x & 0xF8) << 2) | ((x & 7) << 12) }

  function RowFields(f: Fields, x: bv32): Fields { f.(vt := x >> 3, fv := x & 7) }

  lemma RowKept(f: Fields, x: bv32)
    requires InRange(f) && ByteSized(x)
    ensures InRange(RowFields(f, x))
  {
  }

  lemma RowParts(t: bv32, x: bv32)
    requires ByteSized(x)
    ensures Unpack(RowAddress(t, x)) == RowFields(Unpack(t), x)
    ensures Small(t) ==> Small(RowAddress(t, x))
  {
  }

  function HighAddress(t: bv32, x: bv32): bv32 { (t & 0x00FF) | ((x & 0x3F) << 8) }

  function HighFields(f: Fields, x: bv32): Fields
  {
    f.(vt := (f.vt & 0x07) | ((x & 3) << 3), h := (x >> 2) & 1, v := (x >> 3) & 1, fv := (x >> 4) & 3)
  }

  lemma HighKept(f: Fields, x: bv32)
    requires InRange(f) && ByteSized(x)
    ensures InRange(HighFields(f, x))
  {
  }

  lemma HighParts(t: bv32, x: bv32)
    requires ByteSized(x)
    ensures Unpack(HighAddress(t, x)) == HighFields(Unpack(t), x) && Small(HighAddress(t, x))
  {
  }

  function LowAddress(t: bv32, x: bv32): bv32 { (t & 0xFF00) | x }

  function LowFields(f: Fields, x: bv32): Fields { f.(vt := (f.vt & 0x18) | (x >> 5), ht := x & 31) }

  lemma LowKept(f: Fields, x: bv32)
    requires InRange(f) && ByteSized(x)
    ensures InRange(LowFields(f, x))
  {
  }

  lemma LowParts(t: bv32, x: bv32)
    requires ByteSized(x)
    ensures Unpack(LowAddress(t, x)) == LowFields(Unpack(t), x)
    ensures Small(t) ==> Small(LowAddress(t, x))
  {
  }

  /** The horizontal part of the pending address. */
  function HorizontalAddress(a: bv32, t: bv32): bv32 { (a & 0xFBE0) | (t & 0x041F) }

  function HorizontalFields(f: Fields, latch: Fields): Fields { f.(ht := latch.ht, h := latch.h) }

  lemma HorizontalParts(a: bv32, t: bv32)
    ensures Unpack(HorizontalAddress(a, t)) == HorizontalFields(Unpack(a), Unpack(t))
  {
  }

  // The bit operations of the steps by name: the proofs about the handlers take them as they are.

  function Plus(x: bv32, c: bv32): bv32 { x + c }

  function Masked(x: bv32, m: bv32): bv32 { x & m }

  function Flipped(x: bv32, m: bv32): bv32 { x ^ m }

  /** What a counter of five bits, of one or of three carries over. */
  function Over5(x: bv32): bv32 { x >> 5 }

  function Over1(x: bv32): bv32 { x >> 1 }

  function Over3(x: bv32): bv32 { x >> 3 }

  /** One line down: after the last tile row of a name table the other one starts, and behind
      the two rows that hold no tiles the same one does. */
  function DownFields(f: Fields): Fields
  {
    if f.fv < 7 then f.(fv := f.fv + 1)
    else if f.vt == 29 then f.(fv := 0, vt := 0, v := 1 - f.v)
    else if f.vt == 31 then f.(fv := 0, vt := 0)
    else f.(fv := 0, vt := f.vt + 1)
  }

  lemma DownKept(f: Fields)
    requires InRange(f)
    ensures InRange(DownFields(f))
  {
  }

  /** The bits of an address above the counters. */
  function Above(a: bv32): bv32
  {
    a & 0xFFFF_8000
  }

  /** A step down of the address is one of the counters packed in it. */
  function DownAddress(a: bv32): bv32
  {
    Above(a) | Pack(DownFields(Unpack(a)))
  }

  lemma AboveParts(a: bv32)
    ensures a == Above(a) | Pack(Unpack(a))
  {
  }

  lemma PartsBelow(a: bv32, f: Fields)
    requires InRange(f)
    ensures Unpack(Above(a) | Pack(f)) == f
  {
  }

  lemma DownParts(a: bv32)
    ensures Unpack(DownAddress(a)) == DownFields(Unpack(a))
  {
    hide DownFields, Above, Unpack, Pack, InRange;
    PackUnpack(a);
    DownKept(Unpack(a));
    PartsBelow(a, DownFields(Unpack(a)));
  }

  predicate Down(a: bv32, b: bv32)
  {
    Above(b) == Above(a) && Unpack(b) == DownFields(Unpack(a))
  }

  lemma FineAbove(a: bv32)
    requires Masked(a, 0x7000) != 0x7000
    ensures Above(Plus(a, 0x1000)) == Above(a)
  {
  }

  lemma FineParts(a: bv32)
    requires Masked(a, 0x7000) != 0x7000
    ensures Unpack(a).fv < 7 && Unpack(Plus(a, 0x1000)) == Unpack(a).(fv := Unpack(a).fv + 1)
  {
  }

  lemma DownFine(a: bv32)
    requires Masked(a, 0x7000) != 0x7000
    ensures Down(a, Plus(a, 0x1000))
  {
    hide Above, Unpack, Masked, Plus;
    FineAbove(a);
    FineParts(a);
  }

  lemma DownTable(a: bv32)
    requires Masked(a, 0x7000) == 0x7000 && Masked(Flipped(a, 0x7000), 0x3E0) == 0x3A0
    ensures Down(a, Flipped(Flipped(a, 0x7000), 0xBA0))
  {
  }

  lemma DownWrap(a: bv32)
    requires Masked(a, 0x7000) == 0x7000 && Masked(Flipped(a, 0x7000), 0x3E0) == 0x3E0
    ensures Down(a, Flipped(Flipped(a, 0x7000), 0x3E0))
  {
  }

  lemma RowAbove(a: bv32)
    requires Masked(a, 0x7000) == 0x7000 && Masked(Flipped(a, 0x7000), 0x3E0) != 0x3E0
    ensures Above(Plus(Flipped(a, 0x7000), 0x20)) == Above(a)
  {
  }

  lemma RowTests(a: bv32)
    requires Masked(a, 0x7000) == 0x7000
    ensures Unpack(a).fv == 7
    ensures Unpack(a).vt == 31 <==> Masked(Flipped(a, 0x7000), 0x3E0) == 0x3E0
    ensures Unpack(a).vt == 29 <==> Masked(Flipped(a, 0x7000), 0x3E0) == 0x3A0
  {
  }

  lemma NextRow(a: bv32)
    requires Masked(a, 0x7000) == 0x7000 && Masked(Flipped(a, 0x7000), 0x3E0) != 0x3E0
    ensures Unpack(Plus(Flipped(a, 0x7000), 0x20)) == Unpack(a).(fv := 0, vt := Unpack(a).vt + 1)
  {
  }

  lemma DownRow(a: bv32)
    requires Masked(a, 0x7000) == 0x7000
    requires Masked(Flipped(a, 0x7000), 0x3E0) != 0x3A0 && Masked(Flipped(a, 0x7000), 0x3E0) != 0x3E0
    ensures Down(a, Plus(Flipped(a, 0x7000), 0x20))
  {
    hide Above, Unpack, Masked, Plus, Flipped;
    RowAbove(a);
    RowTests(a);
    NextRow(a);
  }

  lemma IsDown(a: bv32, b: bv32)
    requires Down(a, b)
    ensures b == DownAddress(a)
  {
    hide DownFields, Above, Unpack, Pack;
    AboveParts(b);
  }

  /** The counters after one line down, the way they are counted. */
  lemma CountedDown(f: Fields)
    requires InRange(f)
    ensures var overflow := Over3(Plus(f.fv, 1));
      var vt := Masked(Plus(f.vt, overflow), 31);
      DownFields(f) ==
        if vt == 30 && overflow == 1 then f.(fv := Masked(Plus(f.fv, 1), 7), vt := 0, v := Masked(Plus(f.v, 1), 1))
        else f.(fv := Masked(Plus(f.fv, 1), 7), vt := vt, v := Masked(f.v, 1))
  {
  }

  /** One place or one row on in memory. The counters are one counter of 15 bits. */
  function AheadAddress(a: bv32, by32: bool): bv32 { if by32 then a + 32 else a + 1 }

  function AheadFields(f: Fields, by32: bool): Fields { Unpack(AheadAddress(Pack(f), by32)) }

  /** The counters clocked each by the one before: `c` is clocked into the rows. */
  function Chained(f: Fields, ht: bv32, c: bv32): Fields
  {
    var vt := Plus(f.vt, c);
    var h := Plus(f.h, Over5(vt));
    var v := Plus(f.v, Over1(h));
    var fv := Plus(f.fv, Over1(v));
    Fields(Masked(fv, 7), Masked(v, 1), Masked(h, 1), Masked(vt, 31), Masked(ht, 31))
  }

  function ChainedFields(f: Fields, by32: bool): Fields
  {
    if by32 then Chained(f, f.ht, 1) else Chained(f, Plus(f.ht, 1), Masked(Over5(Plus(f.ht, 1)), 1))
  }

  lemma ChainedOne(a: bv32)
    ensures Unpack(a + 1) == ChainedFields(Unpack(a), false)
  {
  }

  lemma ChainedRow(a: bv32)
    ensures Unpack(a + 32) == ChainedFields(Unpack(a), true)
  {
  }

  lemma ChainedStep(a: bv32, by32: bool)
    ensures Unpack(AheadAddress(a, by32)) == ChainedFields(Unpack(a), by32)
  {
    hide Unpack, ChainedFields;
    ChainedOne(a);
    ChainedRow(a);
  }

  lemma AheadParts(a: bv32, by32: bool)
    ensures Unpack(AheadAddress(a, by32)) == AheadFields(Unpack(a), by32)
  {
    hide Unpack, Pack, ChainedFields, InRange, AheadAddress, Low15;
    PackUnpack(a);
    UnpackPack(Unpack(a));
    ChainedStep(a, by32);
    ChainedStep(Pack(Unpack(a)), by32);
  }

  /** Chained, the counters are one counter of 15 bits. */
  lemma ChainedIsAhead(f: Fields, by32: bool)
    requires InRange(f)
    ensures ChainedFields(f, by32) == AheadFields(f, by32) && InRange(AheadFields(f, by32))
  {
    hide Unpack, Pack, ChainedFields, InRange, AheadAddress, Low15;
    UnpackPack(f);
    ChainedStep(Pack(f), by32);
    PackUnpack(AheadAddress(Pack(f), by32));
  }

  /** A step down is never a step ahead. */
  lemma AheadIsNotDown(f: Fields, by32: bool)
    requires InRange(f)
    ensures AheadFields(f, by32) != DownFields(f)
  {
    ChainedIsAhead(f, by32);
    hide AheadFields;
    ChainedIsNotDown(f, by32);
    hide ChainedFields, DownFields;
  }

  lemma ChainedIsNotDown(f: Fields, by32: bool)
    requires InRange(f)
    ensures ChainedFields(f, by32) != DownFields(f)
  {
    ChainedMoves(f);
    DownMoves(f);
    hide ChainedFields, DownFields;
  }

  lemma ChainedMoves(f: Fields)
    requires InRange(f)
    ensures ChainedFields(f, false).ht != f.ht && ChainedFields(f, true).vt != f.vt
    ensures f.vt == 31 ==> ChainedFields(f, true).h != f.h
    ensures f.vt != 31 ==> ChainedFields(f, true).vt != 0 && ChainedFields(f, true).fv == f.fv
  {
  }

  lemma DownMoves(f: Fields)
    requires InRange(f)
    ensures DownFields(f).ht == f.ht && DownFields(f).h == f.h
    ensures DownFields(f).vt == f.vt || f.vt == 31 || DownFields(f).vt == 0 || DownFields(f).fv != f.fv
  {
  }

  // The registers over time.

  /** The packed registers and the split ones, with the two control registers. */
  datatype Scroll = Scroll(temp: bv32, refresh: bv32, xOffset: bv32, toggle: bool, control: bv8, mask: bv8,
                           count: Fields, latch: Fields, fh: bv32)

  const ZERO: Fields := Fields(0, 0, 0, 0, 0)
  const RESET: Scroll := Scroll(0, 0, 0, false, 0, 0, ZERO, ZERO, 0)

  /** The latches are the pending address, which has 15 bits, and the counters the low 15 bits
      of the current one. */
  predicate Synced(s: Scroll)
  {
    && Small(s.temp) && s.latch == Unpack(s.temp)
    && s.count == Unpack(s.refresh)
    && s.xOffset == s.fh
  }

  lemma SyncedMeans(s: Scroll)
    ensures Synced(s) <==>
      && InRange(s.latch) && s.temp == Pack(s.latch)
      && InRange(s.count) && Low15(s.refresh) == Pack(s.count)
      && s.xOffset == s.fh
  {
    hide Unpack, Pack, InRange, Low15, Small;
    PackUnpack(s.temp);
    PackUnpack(s.refresh);
    if InRange(s.latch) && InRange(s.count) {
      UnpackPack(s.latch);
      UnpackPack(s.count);
    }
    LowSmall(s.temp);
  }

  lemma LowSmall(a: bv32)
    ensures Low15(a) == a <==> Small(a)
  {
  }

  predicate Rendering(mask: bv8)
  {
    mask & 0x18 != 0
  }

  predicate ByRows(control: bv8)
  {
    control & 4 != 0
  }

  function Fine(x: bv32): bv32
  {
    x & 7
  }

  /** What can happen: register accesses by the program, and the copies and steps that the
      picture unit makes at the start of a frame and at the end of a line. */
  datatype Event =
    | Write2000(val: bv8)
    | Write2001(val: bv8)
    | Read2002
    | Write2005(val: bv8)
    | Write2006(val: bv8)
    | Read2007(visible: bool)
    | Write2007(visible: bool)
    | FrameStart
    | LineEnd
    | LineDown

  function Step(s: Scroll, e: Event): Scroll
  {
    match e
    case Write2000(val) =>
      s.(control := val, temp := TableAddress(s.temp, Wide(val)), latch := TableFields(s.latch, Wide(val)))
    case Write2001(val) => s.(mask := val)
    case Read2002 => s.(toggle := false)
    case Write2005(val) =>
      var x := Wide(val);
      if !s.toggle then
        s.(temp := ColumnAddress(s.temp, x), xOffset := Fine(x), latch := ColumnFields(s.latch, x), fh := Fine(x), toggle := true)
      else
        s.(temp := RowAddress(s.temp, x), latch := RowFields(s.latch, x), toggle := false)
    case Write2006(val) =>
      var x := Wide(val);
      if !s.toggle then s.(temp := HighAddress(s.temp, x), latch := HighFields(s.latch, x), toggle := true)
      else
        var t, latch := LowAddress(s.temp, x), LowFields(s.latch, x);
        s.(temp := t, refresh := t, latch := latch, count := latch, toggle := false)
    case Read2007(visible) =>
      if visible && Rendering(s.mask) then s.(refresh := DownAddress(s.refresh), count := DownFields(s.count))
      else s.(refresh := AheadAddress(s.refresh, ByRows(s.control)), count := AheadFields(s.count, ByRows(s.control)))
    case Write2007(visible) =>
      s.(refresh := AheadAddress(s.refresh, ByRows(s.control)),
         count := if visible && Rendering(s.mask) then DownFields(s.count) else AheadFields(s.count, ByRows(s.control)))
    case FrameStart => if Rendering(s.mask) then s.(refresh := s.temp, count := s.latch) else s
    case LineEnd =>
      if Rendering(s.mask) then
        s.(refresh := HorizontalAddress(s.refresh, s.temp), count := HorizontalFields(s.count, s.latch))
      else s
    case LineDown => if Rendering(s.mask) then s.(refresh := DownAddress(s.refresh), count := DownFields(s.count)) else s
  }

  /** The one access on which the two renderers differ. */
  predicate WriteWhileRendering(s: Scroll, e: Event)
  {
    e.Write2007? && e.visible && Rendering(s.mask)
  }

  /** Every event but that one keeps the two in step, and that one never does. */
  lemma StepSynced(s: Scroll, e: Event)
    requires Synced(s)
    ensures Synced(Step(s, e)) <==> !WriteWhileRendering(s, e)
  {
    hide Small, ByteSized, Wide, Pack, Unpack, InRange, TableAddress, TableFields, ColumnAddress, ColumnFields,
      RowAddress, RowFields, HighAddress, HighFields, LowAddress, LowFields, HorizontalAddress, HorizontalFields,
      DownAddress, DownFields, AheadAddress, AheadFields, Rendering, ByRows, Fine;
    match e
    case Write2000(val) =>
      WideByte(val);
      TableParts(s.temp, Wide(val));
    case Write2001(_) =>
    case Read2002 =>
    case Write2005(val) =>
      WideByte(val);
      ColumnParts(s.temp, Wide(val));
      RowParts(s.temp, Wide(val));
    case Write2006(val) =>
      WideByte(val);
      HighParts(s.temp, Wide(val));
      LowParts(s.temp, Wide(val));
    case Read2007(_) =>
      DownParts(s.refresh);
      AheadParts(s.refresh, ByRows(s.control));
    case Write2007(_) =>
      AheadParts(s.refresh, ByRows(s.control));
      PackUnpack(s.refresh);
      AheadIsNotDown(s.count, ByRows(s.control));
    case FrameStart =>
    case LineEnd => HorizontalParts(s.refresh, s.temp);
    case LineDown => DownParts(s.refresh);
  }

  // What the registers mean, in numbers.

  /** Division of bytes by 2, 4, 8, 16 and 64 is that of the numbers they stand for. */
  lemma Half(val: bv8)
    ensures (val / 2) as int == val as int / 2
  {
  }

  lemma Even(val: bv8)
    ensures (val % 2) as int == val as int % 2
  {
  }

  lemma Quarter(val: bv8)
    ensures (val / 4) as int == val as int / 4
  {
  }

  lemma Eighth(val: bv8)
    ensures (val / 8) as int == val as int / 8
  {
  }

  lemma InEight(val: bv8)
    ensures (val % 8) as int == val as int % 8
  {
  }

  lemma Sixteenth(val: bv8)
    ensures (val / 16) as int == val as int / 16
  {
  }

  lemma In64(val: bv8)
    ensures (val % 64) as int == val as int % 64 && val % 64 < 64
  {
  }

  lemma One(bit: bv8)
    ensures bit == 1 <==> bit as int == 1
  {
  }

  lemma RowsByte(control: bv8)
    ensures ByRows(control) <==> control / 4 % 2 == 1
  {
  }

  lemma RowsBit(control: bv8)
    ensures ByRows(control) <==> control as int / 4 % 2 == 1
  {
    RowsByte(control);
    Quarter(control);
    Even(control / 4);
    One(control / 4 % 2);
    hide ByRows;
  }

  lemma ShowByte(mask: bv8)
    ensures Rendering(mask) <==> mask / 8 % 2 == 1 || mask / 16 % 2 == 1
  {
  }

  lemma ShowBits(mask: bv8)
    ensures Rendering(mask) <==> mask as int / 8 % 2 == 1 || mask as int / 16 % 2 == 1
  {
    ShowByte(mask);
    Eighth(mask);
    Even(mask / 8);
    One(mask / 8 % 2);
    Sixteenth(mask);
    Even(mask / 16);
    One(mask / 16 % 2);
    hide Rendering;
  }

  /** Bit 2 of $2000 selects how far a $2007 access outside the picture moves on: a row of 32
      or one place, for the address and for the counters as one number of 15 bits. */
  lemma StepWidth(s: Scroll, val: bv8, write: bool)
    requires InRange(s.count)
    ensures var t := Step(Step(s, Write2000(val)), if write then Write2007(false) else Read2007(false));
      && InRange(t.count)
      && (val as int / 4 % 2 == 1 ==> t.refresh == s.refresh + 32 && Pack(t.count) == Low15(Pack(s.count) + 32))
      && (val as int / 4 % 2 == 0 ==> t.refresh == s.refresh + 1 && Pack(t.count) == Low15(Pack(s.count) + 1))
  {
    AheadBy(s.refresh);
    AheadBy(Pack(s.count));
    hide ByRows, Rendering, Pack, Unpack, InRange, Low15, TableAddress, TableFields, Wide, AheadAddress;
    RowsBit(val);
    PackUnpack(AheadAddress(Pack(s.count), ByRows(val)));
  }

  lemma AheadBy(a: bv32)
    ensures AheadAddress(a, true) == a + 32 && AheadAddress(a, false) == a + 1
  {
  }

  /** Bits 3 and 4 of $2001 decide whether the picture unit does anything at the start of a
      frame, at the end of a line and behind it. */
  lemma ShownOrStill(s: Scroll, val: bv8)
    ensures var t := Step(s, Write2001(val));
      var shown := val as int / 8 % 2 == 1 || val as int / 16 % 2 == 1;
      && Step(t, FrameStart) == (if shown then t.(refresh := s.temp, count := s.latch) else t)
      && Step(t, LineEnd) == (if shown then t.(refresh := HorizontalAddress(s.refresh, s.temp),
                                               count := s.count.(ht := s.latch.ht, h := s.latch.h)) else t)
      && Step(t, LineDown) == (if shown then t.(refresh := DownAddress(s.refresh), count := DownFields(s.count)) else t)
      && Step(t, Read2007(true)) == if shown then Step(t, LineDown) else Step(t, Read2007(false))
  {
    ShowBits(val);
    hide Rendering, ByRows, HorizontalAddress, DownAddress, DownFields, AheadAddress, AheadFields;
  }

  lemma ByteWide(val: bv8)
    ensures Wide(val) >> 3 == (val / 8) as bv32 && Wide(val) & 7 == Fine(Wide(val)) == (val % 8) as bv32
    ensures Wide(val) & 1 == (val % 2) as bv32 && (Wide(val) >> 1) & 1 == (val / 2 % 2) as bv32
  {
  }

  lemma Number(val: bv8)
    ensures (val as bv32) as int == val as int
  {
  }

  /** The numbers a byte written to $2005 or $2000 is split in. */
  lemma ByteParts(val: bv8)
    ensures (Wide(val) >> 3) as int == val as int / 8 && (Wide(val) & 7) as int == val as int % 8
    ensures Fine(Wide(val)) == Wide(val) & 7
    ensures (Wide(val) & 1) as int == val as int % 2 && ((Wide(val) >> 1) & 1) as int == val as int / 2 % 2
  {
    ByteWide(val);
    Eighth(val);
    Number(val / 8);
    InEight(val);
    Number(val % 8);
    Even(val);
    Number(val % 2);
    Half(val);
    Even(val / 2);
    Number(val / 2 % 2);
    hide Wide, Fine;
  }

  /** After a read of $2002, two writes to $2005 and one to $2000 the pending position is the
      one written: 8 * column + fine column, 8 * row + fine row, and the name table. */
  lemma ScrollIsSet(s: Scroll, x: bv8, y: bv8, table: bv8)
    ensures var t := Step(Step(Step(Step(s, Read2002), Write2005(x)), Write2005(y)), Write2000(table));
      && 8 * t.latch.ht as int + t.fh as int == x as int && t.fh as int == x as int % 8 && t.xOffset == t.fh
      && 8 * t.latch.vt as int + t.latch.fv as int == y as int && t.latch.fv as int == y as int % 8
      && t.latch.h as int == table as int % 2 && t.latch.v as int == table as int / 2 % 2
      && !t.toggle && t.refresh == s.refresh && t.count == s.count
  {
    ByteParts(x);
    ByteParts(y);
    ByteParts(table);
    hide Fine, Wide, TableAddress, ColumnAddress, RowAddress;
  }

  lemma TwoBytes(t: bv32, high: bv8, low: bv8)
    ensures LowAddress(HighAddress(t, Wide(high)), Wide(low)) == ((high % 64) as bv32) * 0x100 + (low as bv32)
  {
  }

  lemma TwoNumbers(high: bv8, low: bv8)
    requires high < 64
    ensures ((high as bv32) * 0x100 + (low as bv32)) as int == 0x100 * (high as int) + low as int
  {
  }

  lemma BothWritten(t: bv32, high: bv8, low: bv8)
    ensures LowAddress(HighAddress(t, Wide(high)), Wide(low)) as int == 0x100 * (high as int % 64) + low as int
  {
    hide LowAddress, HighAddress, Wide;
    TwoBytes(t, high, low);
    In64(high);
    TwoNumbers(high % 64, low);
  }

  /** After a read of $2002, two writes to $2006 set the current address, high byte first, and
      the counters to its parts. */
  lemma AddressIsSet(s: Scroll, high: bv8, low: bv8)
    requires Synced(s)
    ensures var t := Step(Step(Step(s, Read2002), Write2006(high)), Write2006(low));
      && t.refresh as int == 0x100 * (high as int % 64) + low as int
      && t.temp == t.refresh && t.latch == t.count && Pack(t.count) == t.refresh && !t.toggle
  {
    hide Wide, LowAddress, HighAddress, LowFields, HighFields, TableAddress, TableFields, ColumnAddress, ColumnFields,
      RowAddress, RowFields, Unpack, Pack, InRange, Low15, Small, Fine;
    BothWritten(s.temp, high, low);
    var s1 := Step(s, Read2002);
    var s2 := Step(s1, Write2006(high));
    StepSynced(s, Read2002);
    StepSynced(s1, Write2006(high));
    StepSynced(s2, Write2006(low));
    SyncedMeans(Step(s2, Write2006(low)));
    UnpackPack(Step(s2, Write2006(low)).count);
  }

  function Run(s: Scroll, es: seq<Event>): Scroll
    decreases |es|
  {
    if es == [] then s else Run(Step(s, es[0]), es[1..])
  }

  /** No event of the run is the one that sets the renderers apart. */
  predicate Agreeable(s: Scroll, es: seq<Event>)
    decreases |es|
  {
    es == [] || (!WriteWhileRendering(s, es[0]) && Agreeable(Step(s, es[0]), es[1..]))
  }

  /** Over every run the two forms of the registers stay in step. */
  lemma {:induction false} RunSynced(s: Scroll, es: seq<Event>)
    requires Synced(s) && Agreeable(s, es)
    ensures Synced(Run(s, es))
    decreases |es|
  {
    hide Synced, Step, WriteWhileRendering;
    if es != [] {
      StepSynced(s, es[0]);
      RunSynced(Step(s, es[0]), es[1..]);
    }
  }

  lemma ResetParts()
    ensures Synced(RESET)
  {
  }

  lemma ResetSynced(es: seq<Event>)
    requires Agreeable(RESET, es)
    ensures Synced(Run(RESET, es))
  {
    hide Synced, Step;
    ResetParts();
    RunSynced(RESET, es);
  }

  /** The registers in place, updated the way the handlers do. */
  class Ppu {
    var temp: bv32
    var refresh: bv32
    var xOffset: bv32
    var toggle: bool
    var control: bv8
    var mask: bv8
    var count: Fields
    var latch: Fields
    var fh: bv32

    function Value(): Scroll
      reads this
    {
      Scroll(temp, refresh, xOffset, toggle, control, mask, count, latch, fh)
    }

    /** No counter or latch ever leaves its width. */
    ghost predicate Valid()
      reads this
    {
      InRange(count) && InRange(latch)
    }

    constructor ()
      ensures Valid() && Value() == RESET
    {
      temp, refresh, xOffset, toggle, control, mask, fh := 0, 0, 0, false, 0, 0, 0;
      count, latch := ZERO, ZERO;
    }

    method B2000(val: bv8)
      requires Valid()
      modifies this
      ensures Valid() && Value() == Step(old(Value()), Write2000(val))
    {
      hide Wide, ByteSized, InRange, TableAddress, TableFields;
      WideByte(val);
      TableKept(latch, Wide(val));
      control := val;
      temp := TableAddress(temp, Wide(val));
      latch := TableFields(latch, Wide(val));
    }

    method B2001(val: bv8)
      requires Valid()
      modifies this`mask
      ensures Valid() && Value() == Step(old(Value()), Write2001(val))
    {
      mask := val;
    }

    /** A read of $2002 starts a pair of writes anew. */
    method A2002()
      requires Valid()
      modifies this`toggle
      ensures Valid() && Value() == Step(old(Value()), Read2002)
    {
      toggle := false;
    }

    method B2005(val: bv8)
      requires Valid()
      modifies this
      ensures Valid() && Value() == Step(old(Value()), Write2005(val))
    {
      hide Wide, ByteSized, InRange, ColumnAddress, ColumnFields, RowAddress, RowFields, Fine;
      WideByte(val);
      ColumnKept(latch, Wide(val));
      RowKept(latch, Wide(val));
      var tmp := temp;
      if !toggle {
        tmp := ColumnAddress(tmp, Wide(val));
        xOffset := Fine(Wide(val));
        latch := ColumnFields(latch, Wide(val));
        fh := Fine(Wide(val));
      } else {
        tmp := RowAddress(tmp, Wide(val));
        latch := RowFields(latch, Wide(val));
      }
      temp := tmp;
      toggle := !toggle;
    }

    method B2006(val: bv8)
      requires Valid()
      modifies this
      ensures Valid() && Value() == Step(old(Value()), Write2006(val))
    {
      hide Wide, ByteSized, InRange, HighAddress, HighFields, LowAddress, LowFields;
      WideByte(val);
      HighKept(latch, Wide(val));
      LowKept(latch, Wide(val));
      if !toggle {
        temp := HighAddress(temp, Wide(val));
        latch := HighFields(latch, Wide(val));
      } else {
        temp := LowAddress(temp, Wide(val));
        refresh := temp;
        latch := LowFields(latch, Wide(val));
        count := latch;
      }
      toggle := !toggle;
    }

    /** One line down, counter by counter. */
    method IncrementVs()
      requires Valid()
      modifies this`count
      ensures Valid() && count == DownFields(old(count))
    {
      hide DownFields, InRange, Plus, Masked, Over3;
      DownKept(count);
      CountedDown(count);
      var fv, vt, v := count.fv, count.vt, count.v;
      fv := Plus(fv, 1);
      var overflow := Over3(fv);
      vt := Plus(vt, overflow);
      vt := Masked(vt, 31);
      if vt == 30 && overflow == 1 {
        v := Plus(v, 1);
        vt := 0;
      }
      fv := Masked(fv, 7);
      v := Masked(v, 1);
      count := count.(fv := fv, vt := vt, v := v);
    }

    /** An access to $2007: while rendering one line down, else each counter clocks the next. */
    method Increment2007(rendering: bool, by32: bool)
      requires Valid()
      modifies this`count
      ensures Valid() && count == if rendering then DownFields(old(count)) else AheadFields(old(count), by32)
    {
      hide DownFields, AheadFields, InRange, Plus, Masked, Over5, Over1;
      if rendering {
        IncrementVs();
        return;
      }
      ChainedIsAhead(count, by32);
      var fv, v, h, vt, ht := count.fv, count.v, count.h, count.vt, count.ht;
      if by32 {
        vt := Plus(vt, 1);
      } else {
        ht := Plus(ht, 1);
        vt := Plus(vt, Masked(Over5(ht), 1));
      }
      h := Plus(h, Over5(vt));
      v := Plus(v, Over1(h));
      fv := Plus(fv, Over1(v));
      ht := Masked(ht, 31);
      vt := Masked(vt, 31);
      h := Masked(h, 1);
      v := Masked(v, 1);
      fv := Masked(fv, 7);
      count := Fields(fv, v, h, vt, ht);
    }

    /** The packed address one line down. */
    method Fixit1()
      modifies this`refresh
      ensures refresh == if Rendering(mask) then DownAddress(old(refresh)) else old(refresh)
    {
      hide DownAddress, Down, Plus, Masked, Flipped, Rendering;
      if Rendering(mask) {
        var rad := refresh;
        if Masked(rad, 0x7000) == 0x7000 {
          rad := Flipped(rad, 0x7000);
          if Masked(rad, 0x3E0) == 0x3A0 {
            rad := Flipped(rad, 0xBA0);
            DownTable(refresh);
          } else if Masked(rad, 0x3E0) == 0x3E0 {
            rad := Flipped(rad, 0x3E0);
            DownWrap(refresh);
          } else {
            rad := Plus(rad, 0x20);
            DownRow(refresh);
          }
        } else {
          rad := Plus(rad, 0x1000);
          DownFine(refresh);
        }
        IsDown(refresh, rad);
        refresh := rad;
      }
    }

    /** A read of $2007 in both renderers. */
    method A2007(visible: bool)
      requires Valid()
      modifies this
      ensures Valid() && Value() == Step(old(Value()), Read2007(visible))
    {
      hide InRange, DownAddress, DownFields, AheadAddress, AheadFields, Rendering, ByRows;
      Increment2007(visible && Rendering(mask), ByRows(control));
      if visible && Rendering(mask) {
        Fixit1();
      } else {
        refresh := AheadAddress(refresh, ByRows(control));
      }
    }

    /** A write through $2007 in both renderers: only the new one minds whether it renders. */
    method B2007(visible: bool)
      requires Valid()
      modifies this
      ensures Valid() && Value() == Step(old(Value()), Write2007(visible))
    {
      hide InRange, DownFields, AheadAddress, AheadFields, Rendering, ByRows;
      Increment2007(visible && Rendering(mask), ByRows(control));
      refresh := AheadAddress(refresh, ByRows(control));
    }

    /** Before the first line of a frame. */
    method StartFrame()
      requires Valid()
      modifies this`refresh, this`count
      ensures Valid() && Value() == Step(old(Value()), FrameStart)
    {
      hide InRange, Rendering;
      if Rendering(mask) {
        refresh := temp;
        count := latch;
      }
    }

    method Fixit2()
      requires Valid()
      modifies this
      ensures Valid() && Value() == Step(old(Value()), LineEnd)
    {
      hide HorizontalAddress, Rendering;
      if Rendering(mask) {
        refresh := HorizontalAddress(refresh, temp);
        count := HorizontalFields(count, latch);
      }
    }
  }
}
