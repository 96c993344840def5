/** The flash chip of the Cheapocabra board: a command machine in front of 512 KiB. */
module Flash {
  import opened Basics
  import opened Bits
  import Cart

  const SIZE := 0x8_0000

  datatype Mode = Ready | Command | ByteWrite | Erase

  datatype Chip = Chip(rom: seq<Byte>, mode: Mode, sequence: nat, id: bool, reg: Byte)

  /** A write to the bank register, or one to the program window. */
  datatype Event = Bank(reg: Byte) | Put(addr: Addr, value: Byte)

  /** What the chip sees of a write: the address inside the bank, and the byte. */
  datatype Write = Write(addr: int, value: int)

  predicate Sized(c: Chip)
  {
    |c.rom| == SIZE
  }

  function Place(reg: Byte, a: Addr): (p: nat)
    ensures p < SIZE && p % 0x8000 == a % 0x8000
  {
    0x8000 * (reg % 16) + a % 0x8000
  }

  function Cleared(a: Byte, b: Byte): Byte
  {
    Pow2Small();
    BitOp(Op.And, 8, a, b)
  }

  function Filled(rom: seq<Byte>, from: nat, n: nat): (r: seq<Byte>)
    requires from + n <= |rom|
    ensures |r| == |rom|
  {
    rom[..from] + seq(n, _ => 0xFF) + rom[from + n..]
  }

  /** The write handler of the program window. */
  function Handle(c: Chip, a: Addr, v: Byte): (c': Chip)
    requires Sized(c)
    ensures Sized(c') && c'.reg == c.reg
  {
    var place := Place(c.reg, a);
    var w := Write(place % 0x8000, v);
    if a < 0x8000 then c
    else
      match c.mode
      case Ready =>
        if w == Write(0x5555, 0xAA) then c.(mode := Command, sequence := 0)
        else if v == 0xF0 then c.(id := false) else c
      case Command =>
        if c.sequence == 0 then
          if w == Write(0x2AAA, 0x55) then c.(sequence := 1) else c.(mode := Ready)
        else if c.sequence == 1 then
          if w.addr == 0x5555 then
            if v == 0xA0 then c.(sequence := 0, mode := ByteWrite)
            else if v == 0x80 then c.(sequence := 0, mode := Erase)
            else if v == 0x90 then c.(sequence := 0, mode := Ready, id := true)
            else if v == 0xF0 then c.(sequence := 0, mode := Ready, id := false)
            else c.(sequence := 0, mode := Ready)
          else c.(mode := Ready)
        else c.(mode := Ready)
      case ByteWrite => c.(rom := c.rom[..place] + [Cleared(c.rom[place], v)] + c.rom[place + 1..], mode := Ready)
      case Erase =>
        if c.sequence == 0 then
          if w == Write(0x5555, 0xAA) then c.(sequence := 1) else c.(mode := Ready)
        else if c.sequence == 1 then
          if w == Write(0x2AAA, 0x55) then c.(sequence := 2) else c.(mode := Ready)
        else if c.sequence == 2 then
          if w == Write(0x5555, 0x10) then c.(rom := Filled(c.rom, 0, SIZE), mode := Ready)
          else if v == 0x30 then c.(rom := Filled(c.rom, place / 0x1000 * 0x1000, 0x1000), mode := Ready)
          else c.(mode := Ready)
        else c.(mode := Ready)
  }

  function Step(c: Chip, e: Event): (c': Chip)
    requires Sized(c)
    ensures Sized(c')
  {
    match e
    case Bank(reg) => c.(reg := reg)
    case Put(a, v) => Handle(c, a, v)
  }

  function Run(c: Chip, events: seq<Event>): (c': Chip)
    requires Sized(c)
    ensures Sized(c')
    decreases |events|
  {
    if events == [] then c else Step(Run(c, events[..|events| - 1]), events[|events| - 1])
  }

  // What the chip has been told.

  /** The writes the chip saw, oldest first; bank switches pass it by. */
  function Writes(events: seq<Event>): seq<Write>
    decreases |events|
  {
    if events == [] then []
    else
      var before, e := Writes(events[..|events| - 1]), events[|events| - 1];
      if e.Put? && e.addr >= 0x8000 then before + [Write(e.addr % 0x8000, e.value)] else before
  }

  predicate EndsWith(ws: seq<Write>, tail: seq<Write>)
  {
    |ws| >= |tail| && ws[|ws| - |tail|..] == tail
  }

  function Unlock(): seq<Write>
  {
    [Write(0x5555, 0xAA), Write(0x2AAA, 0x55)]
  }

  /** The writes that lead to a mode. */
  function Leading(mode: Mode, sequence: nat): seq<Write>
  {
    match mode
    case Ready => []
    case Command => Unlock()[..if sequence == 0 then 1 else 2]
    case ByteWrite => Unlock() + [Write(0x5555, 0xA0)]
    case Erase => Unlock() + [Write(0x5555, 0x80)] + Unlock()[..if sequence <= 2 then sequence else 2]
  }

  predicate Led(c: Chip, ws: seq<Write>)
  {
    && EndsWith(ws, Leading(c.mode, c.sequence))
    && (c.mode == Command ==> c.sequence < 2) && (c.mode == Erase ==> c.sequence < 3)
  }

  lemma EndsWithMore(ws: seq<Write>, tail: seq<Write>, w: Write)
    requires EndsWith(ws, tail)
    ensures EndsWith(ws + [w], tail + [w]) && EndsWith(ws + [w], [w]) && EndsWith(ws, [])
  {
  }

  /** One write the chip sees keeps the mode and what led to it in step. */
  lemma HandleLed(c: Chip, a: Addr, v: Byte, ws: seq<Write>)
    requires Sized(c) && a >= 0x8000 && Led(c, ws)
    ensures Led(Handle(c, a, v), ws + [Write(a % 0x8000, v)])
  {
    hide EndsWith, Filled, Cleared;
    var w := Write(a % 0x8000, v);
    EndsWithMore(ws, Leading(c.mode, c.sequence), w);
    EndsWithMore(ws + [w], Leading(c.mode, c.sequence) + [w], w);
    var c' := Handle(c, a, v);
    if c'.mode != Ready {
      assert Leading(c'.mode, c'.sequence) == Leading(c.mode, c.sequence) + [w];
    }
  }

  lemma {:induction false} ModeMeans(c: Chip, events: seq<Event>)
    requires Sized(c) && c.mode == Ready
    ensures Led(Run(c, events), Writes(events))
    decreases |events|
  {
    hide Led, Handle;
    if events == [] {
      ReadyLed(c);
    } else {
      var before, e := events[..|events| - 1], events[|events| - 1];
      ModeMeans(c, before);
      match e
      case Bank(_) => RegFree(Run(c, before), e.reg, Writes(before));
      case Put(a, v) =>
        if a >= 0x8000 {
          HandleLed(Run(c, before), a, v, Writes(before));
        } else {
          Unmapped(Run(c, before), a, v);
        }
    }
  }

  lemma ReadyLed(c: Chip)
    requires c.mode == Ready
    ensures Led(c, [])
  {
  }

  lemma RegFree(c: Chip, reg: Byte, ws: seq<Write>)
    requires Led(c, ws)
    ensures Led(c.(reg := reg), ws)
  {
  }

  lemma Unmapped(c: Chip, a: Addr, v: Byte)
    requires Sized(c) && a < 0x8000
    ensures Handle(c, a, v) == c
  {
  }

  /** Programming can only clear bits. */
  lemma {:induction false} AndClears(n: nat, a: nat, b: nat)
    ensures BitOp(Op.And, n, BitOp(Op.And, n, a, b), a) == BitOp(Op.And, n, a, b)
  {
    if n > 0 {
      AndClears(n - 1, a / 2, b / 2);
    }
  }

  /** A completed program command: the cell written through it, its bits cleared. */
  predicate Programs(ws: seq<Write>, reg: Byte, e: Event, i: nat, was: Byte, is_: Byte)
  {
    && EndsWith(ws, Leading(ByteWrite, 0)) && e.Put? && e.addr >= 0x8000 && i == Place(reg, e.addr)
    && is_ == Cleared(was, e.value) && Cleared(is_, was) == is_
  }

  /** A completed erase command: the whole chip, or the sector of the address. */
  predicate Erases(ws: seq<Write>, reg: Byte, e: Event, i: nat, is_: Byte)
  {
    && EndsWith(ws, Leading(Erase, 2)) && e.Put? && e.addr >= 0x8000 && is_ == 0xFF
    && (Write(e.addr % 0x8000, e.value) == Write(0x5555, 0x10)
        || (e.value == 0x30 && i / 0x1000 == Place(reg, e.addr) / 0x1000))
  }

  /** In any run a byte of the chip changes only by a completed command. */
  lemma OnlyCommandsChange(c: Chip, events: seq<Event>, e: Event, i: nat)
    requires Sized(c) && c.mode == Ready && i < SIZE
    ensures var before := Run(c, events);
      var was, now, ws := before.rom[i], Step(before, e).rom[i], Writes(events);
      now != was ==> Programs(ws, before.reg, e, i, was, now) || Erases(ws, before.reg, e, i, now)
  {
    hide Run, Writes, EndsWith;
    ModeMeans(c, events);
    var before := Run(c, events);
    if e.Put? {
      AndClears(8, before.rom[i], e.value);
    }
  }

  // Completed commands take effect.

  /** The mode after `k` writes of a command. */
  function Stage(erase: bool, k: nat): (Mode, nat)
    requires k <= if erase then 5 else 3
  {
    if k == 0 then (Ready, 0) else if k <= 2 then (Command, k - 1)
    else if erase then (Erase, k - 3) else (ByteWrite, 0)
  }

  /** A started command is followed step by step, whatever banks are switched meanwhile. */
  lemma {:induction false} Follows(c: Chip, events: seq<Event>, erase: bool)
    requires Sized(c) && c.mode == Ready && Writes(events) <= Leading(if erase then Erase else ByteWrite, 2)
    ensures var c', k := Run(c, events), |Writes(events)|;
      && c'.rom == c.rom && c'.mode == Stage(erase, k).0
      && (k > 0 ==> c'.sequence == Stage(erase, k).1)
    decreases |events|
  {
    hide Cleared, Filled;
    if events != [] {
      var before, e := events[..|events| - 1], events[|events| - 1];
      var all := Leading(if erase then Erase else ByteWrite, 2);
      assert Writes(before) <= all;
      Follows(c, before, erase);
      if e.Put? && e.addr >= 0x8000 {
        var k := |Writes(before)|;
        assert Writes(events)[k] == Write(e.addr % 0x8000, e.value);
        assert Writes(events)[k] == all[k];
      }
    }
  }

  /** Unlocking, A0 and a byte clear the byte's zero bits in the cell, and nothing else. */
  lemma ProgramTakes(c: Chip, events: seq<Event>, a: Addr, v: Byte)
    requires Sized(c) && c.mode == Ready && a >= 0x8000 && Writes(events) == Leading(ByteWrite, 0)
    ensures var c' := Run(c, events + [Put(a, v)]);
      var place := Place(Run(c, events).reg, a);
      c'.mode == Ready && c'.rom == c.rom[place := Cleared(c.rom[place], v)]
  {
    hide Run, Writes, Cleared;
    Follows(c, events, false);
    RunMore(c, events, Put(a, v));
  }

  lemma RunMore(c: Chip, events: seq<Event>, e: Event)
    requires Sized(c)
    ensures Run(c, events + [e]) == Step(Run(c, events), e)
  {
    assert (events + [e])[..|events + [e]| - 1] == events;
  }

  /** The erase command with its last write sets the sector, or the chip, to ones. */
  lemma EraseTakes(c: Chip, events: seq<Event>, a: Addr, v: Byte, i: nat)
    requires Sized(c) && c.mode == Ready && a >= 0x8000 && Writes(events) == Leading(Erase, 2) && i < SIZE
    requires v == 0x30 || (v == 0x10 && a % 0x8000 == 0x5555)
    ensures var c' := Run(c, events + [Put(a, v)]);
      && c'.mode == Ready
      && c'.rom[i] ==
           if v == 0x10 || i / 0x1000 == Place(Run(c, events).reg, a) / 0x1000 then 0xFF else c.rom[i]
  {
    hide Run, Writes;
    Follows(c, events, true);
    RunMore(c, events, Put(a, v));
  }

  /** Any other write on the way drops the command. */
  lemma WrongStep(c: Chip, a: Addr, v: Byte)
    requires Sized(c) && a >= 0x8000 && Led(c, Leading(c.mode, c.sequence))
    ensures c.mode in {Command, Erase} && Handle(c, a, v).mode != Ready ==>
      Leading(Handle(c, a, v).mode, Handle(c, a, v).sequence)
        == Leading(c.mode, c.sequence) + [Write(a % 0x8000, v)]
    ensures Handle(c, a, v).rom != c.rom ==> Handle(c, a, v).mode == Ready
  {
    hide Filled, Cleared;
  }

  /** What is programmed through an address is what the processor reads there. */
  lemma ReadsWhatItWrites(chips: seq<Cart.Chip>, slots: seq<Cart.Slot>, memory: seq<seq<Byte>>, r: nat, c: Chip, a: Addr)
    requires Sized(c) && a >= 0x8000 && Cart.Table(slots) && r < |chips| == |memory|
    requires chips[r] == Cart.Chip(SIZE, true, false) && memory[r] == c.rom
    ensures Cart.ReadAt(Cart.SetBank(chips, slots, 16, r, 0x8000, c.reg % 16), memory, a)
         == Some(c.rom[Place(c.reg, a)])
  {
    hide Cart.SetBank, Cart.ReadAt, Pow2;
    Size19();
    Cart.BankReads(chips, slots, memory, 16, r, 0x8000, c.reg % 16, 19, a - 0x8000);
  }

  lemma Size19()
    ensures Pow2(19) == SIZE
  {
    hide Pow2;
    Pow2Values();
    Cart.Pow2Eight();
    Pow2Add(16, 3);
  }

  // The board in place.

  class Board {
    const rom: array<Byte>
    var mode: Mode
    var sequence: nat
    var id: bool
    var reg: Byte

    ghost predicate Valid()
      reads this
    {
      rom.Length == SIZE
    }

    ghost function State(): (c: Chip)
      requires Valid()
      reads this, rom
      ensures Sized(c)
    {
      Chip(rom[..], mode, sequence, id, reg)
    }

    /** The chip starts as the program ROM over and over. */
    constructor (program: seq<Byte>)
      requires |program| > 0
      ensures Valid() && fresh(rom) && State().mode == Ready && sequence == 0 && !id && reg == 0xFF
      ensures forall w :: 0 <= w < SIZE ==> rom[w] == program[Around(w, |program|)]
    {
      rom := new Byte[SIZE](_ => 0);
      mode, sequence, id, reg := Ready, 0, false, 0xFF;
      new;
      Copy(program);
    }

    method Copy(program: seq<Byte>)
      requires Valid() && |program| > 0
      modifies rom
      ensures forall w :: 0 <= w < SIZE ==> rom[w] == program[Around(w, |program|)]
    {
      hide Around;
      var r := 0;
      AroundStart(|program|);
      for w := 0 to SIZE
        invariant r == Around(w, |program|)
        invariant forall x :: 0 <= x < w ==> rom[x] == program[Around(x, |program|)]
      {
        rom[w] := program[r];
        NextAround(w, |program|);
        r := r + 1;
        if r >= |program| {
          r := 0;
        }
      }
    }

    method SetRegister(v: Byte)
      requires Valid()
      modifies this
      ensures Valid() && State() == Step(old(State()), Bank(v))
    {
      reg := v;
    }

    method Fill(from: nat, n: nat)
      requires Valid() && from + n <= SIZE
      modifies rom
      ensures rom[..] == Filled(old(rom[..]), from, n)
    {
      for k := 0 to n
        invariant forall j :: 0 <= j < SIZE ==> rom[j] == if from <= j < from + k then 0xFF else old(rom[j])
      {
        rom[from + k] := 0xFF;
      }
    }

    method Access(a: Addr, v: Byte)
      requires Valid()
      modifies this, rom
      ensures Valid() && State() == Step(old(State()), Put(a, v))
    {
      hide Cleared, Filled;
      if a < 0x8000 {
        return;
      }
      var place := Place(reg, a);
      var command := place % 0x8000;
      match mode
      case Ready =>
        if command == 0x5555 && v == 0xAA {
          mode, sequence := Command, 0;
        } else if v == 0xF0 {
          id := false;
        }
      case Command =>
        if sequence == 0 {
          if command == 0x2AAA && v == 0x55 {
            sequence := 1;
          } else {
            mode := Ready;
          }
        } else if sequence == 1 {
          if command == 0x5555 {
            sequence := 0;
            if v == 0xA0 {
              mode := ByteWrite;
            } else if v == 0x80 {
              mode := Erase;
            } else {
              mode := Ready;
              if v == 0x90 {
                id := true;
              } else if v == 0xF0 {
                id := false;
              }
            }
          } else {
            mode := Ready;
          }
        } else {
          mode := Ready;
        }
      case ByteWrite =>
        rom[place] := Cleared(rom[place], v);
        mode := Ready;
      case Erase =>
        if sequence == 0 && command == 0x5555 && v == 0xAA {
          sequence := 1;
        } else if sequence == 1 && command == 0x2AAA && v == 0x55 {
          sequence := 2;
        } else {
          if sequence == 2 {
            if command == 0x5555 && v == 0x10 {
              Fill(0, SIZE);
            } else if v == 0x30 {
              Fill(place / 0x1000 * 0x1000, 0x1000);
            }
          }
          mode := Ready;
        }
    }
  }

  /** Counting round `n` places. */
  function Around(w: nat, n: nat): (r: nat)
    requires n > 0
    ensures r < n
  {
    w % n
  }

  lemma AroundStart(n: nat)
    requires n > 0
    ensures Around(0, n) == 0
  {
  }

  lemma NextAround(w: nat, n: nat)
    requires n > 0
    ensures Around(w + 1, n) == if Around(w, n) + 1 >= n then 0 else Around(w, n) + 1
  {
    var q, r := w / n, w % n;
    assert w == q * n + r;
    if r + 1 < n {
      DivModUnique(w + 1, n, q, r + 1);
    } else {
      DivModUnique(w + 1, n, q + 1, 0);
    }
  }
}
