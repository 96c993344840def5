/** The serial EEPROM of the Bandai boards, from the level of its two wires up to whole
    transfers. */
module Eeprom {
  import opened Basics

  type Seven = x: int | 0 <= x < 0x80
  type Cells = s: seq<Byte> | |s| == 0x100 witness seq(0x100, _ => 0)

  datatype Mode = Standby | Address | Word | Read | Write

  datatype Chip = Chip(data: Cells, mode: Mode, addr: Byte, word: Byte, latch: Byte, bitcount: Byte,
                       sda: Bit, scl: Bit, out: Bit, oe: Bit)

  /** A byte register takes in a bit from the right. */
  function ShiftIn(x: Byte, b: Bit): Byte
  {
    (2 * x + b) % 0x100
  }

  function Next(x: Byte): Byte
  {
    (x + 1) % 0x100
  }

  /** Clock rising: one bit. `large` tells the chip with a separate word address. */
  function Rise(large: bool, c: Chip, sda: Bit): Chip
  {
    match c.mode
    case Standby => c
    case Address =>
      if c.bitcount < 7 then c.(addr := ShiftIn(c.addr, sda), bitcount := Next(c.bitcount))
      else
        c.(word := if large then c.word else c.addr,
           mode := if sda == 1 then Read else if large then Word else Write,
           bitcount := Next(c.bitcount))
    case Word =>
      if c.bitcount == 8 then c.(word := 0, out := 0, bitcount := 9)
      else if c.bitcount == 16 then c.(word := ShiftIn(c.word, sda), mode := Write, bitcount := 8)
      else c.(word := ShiftIn(c.word, sda), bitcount := Next(c.bitcount))
    case Read =>
      if c.bitcount == 8 then c.(out := 0, latch := c.data[c.word], bitcount := 0)
      else
        var n := Next(c.bitcount);
        c.(out := c.latch / 0x80, latch := 2 * c.latch % 0x100, bitcount := n,
           word := if n == 8 then Next(c.word) else c.word)
    case Write =>
      if c.bitcount == 8 then c.(out := 0, latch := 0, bitcount := 0)
      else
        var n, latch := Next(c.bitcount), ShiftIn(c.latch, sda);
        if n == 8 then c.(latch := latch, bitcount := n, data := c.data[c.word := latch], word := Next(c.word))
        else c.(latch := latch, bitcount := n)
  }

  /** A change of the wires. With the clock high a falling data line starts and a rising
      one stops a transfer; a rising clock brings one bit. */
  function Wires(large: bool, c: Chip, sda: Bit, scl: Bit, oe: Bit): Chip
  {
    var c' :=
      if c.scl == 1 && scl == 1 then
        if c.sda == 1 && sda == 0 then c.(mode := Address, bitcount := 0, addr := 0)
        else if c.sda == 0 && sda == 1 then c.(mode := Standby)
        else c
      else if c.scl == 0 && scl == 1 then Rise(large, c, sda)
      else c;
    c'.(sda := sda, scl := scl, oe := oe)
  }

  /** One write to the port: bit 7 output enable, bit 6 data, bit 5 clock. */
  function Port(large: bool, c: Chip, value: Byte): Chip
  {
    Wires(large, c, value / 0x40 % 2, value / 0x20 % 2, value / 0x80)
  }

  function Ports(large: bool, c: Chip, values: seq<Byte>): Chip
    decreases |values|
  {
    if values == [] then c else Ports(large, Port(large, c, values[0]), values[1..])
  }

  // Memory.

  /** The port write clocks in the eighth bit of a data byte. */
  predicate Commits(c: Chip, value: Byte)
  {
    c.mode == Write && c.bitcount == 7 && c.scl == 0 && value / 0x20 % 2 == 1
  }

  /** Memory changes on that write alone, in the addressed cell alone, to the byte clocked in. */
  lemma PortStores(large: bool, c: Chip, value: Byte)
    ensures Port(large, c, value).data ==
      if Commits(c, value) then c.data[c.word := ShiftIn(c.latch, value / 0x40 % 2)] else c.data
  {
  }

  /** Somewhere in the run a data byte is completed for cell `a`. */
  predicate Stores(large: bool, c: Chip, values: seq<Byte>, a: Byte)
    decreases |values|
  {
    values != [] &&
    ((Commits(c, values[0]) && c.word == a) || Stores(large, Port(large, c, values[0]), values[1..], a))
  }

  lemma {:induction false} OnlyStoresChange(large: bool, c: Chip, values: seq<Byte>, a: Byte)
    requires !Stores(large, c, values, a)
    ensures Ports(large, c, values).data[a] == c.data[a]
    decreases |values|
  {
    hide Port, Commits;
    if values != [] {
      PortStores(large, c, values[0]);
      OnlyStoresChange(large, Port(large, c, values[0]), values[1..], a);
    }
  }

  // Transfers.

  function Line(sda: Bit, scl: Bit): Byte
  {
    (if sda == 1 then 0x40 else 0) + (if scl == 1 then 0x20 else 0)
  }

  lemma LineDecodes(sda: Bit, scl: Bit)
    ensures Line(sda, scl) / 0x40 % 2 == sda && Line(sda, scl) / 0x20 % 2 == scl && Line(sda, scl) / 0x80 == 0
  {
    assert sda == 0 || sda == 1;
    assert scl == 0 || scl == 1;
  }

  lemma LineBits(large: bool, c: Chip, sda: Bit, scl: Bit)
    ensures Port(large, c, Line(sda, scl)) == Wires(large, c, sda, scl, 0)
  {
    hide Wires, Line;
    LineDecodes(sda, scl);
  }

  /** One clock pulse with a bit on the data line. */
  function Clock(large: bool, c: Chip, b: Bit): Chip
  {
    Port(large, Port(large, c, Line(b, 0)), Line(b, 1))
  }

  lemma RiseIgnoresLines(large: bool, c: Chip, b: Bit, sda: Bit, scl: Bit, oe: Bit)
    ensures Rise(large, c.(sda := sda, scl := scl, oe := oe), b) == Rise(large, c, b).(sda := sda, scl := scl, oe := oe)
  {
  }

  lemma ClockRises(large: bool, c: Chip, b: Bit)
    ensures Clock(large, c, b) == Rise(large, c, b).(sda := b, scl := 1, oe := 0)
  {
    hide Rise, Port, Line;
    LineBits(large, c, b, 0);
    LineBits(large, Wires(large, c, b, 0, 0), b, 1);
    RiseIgnoresLines(large, c, b, b, 0, 0);
  }

  /** The data line moves while the clock stays high. */
  function Move(large: bool, c: Chip, b: Bit): Chip
  {
    Port(large, c, Line(b, 1))
  }

  function Start(large: bool, c: Chip): Chip
  {
    Move(large, Clock(large, c, 1), 0)
  }

  function Stop(large: bool, c: Chip): Chip
  {
    Move(large, Clock(large, c, 0), 1)
  }

  /** The first `k` bits of a byte, most significant first. */
  function Prefix(v: Byte, k: nat): Byte
    requires k <= 8
    decreases 8 - k
  {
    if k == 8 then v else Prefix(v, k + 1) / 2
  }

  function BitAt(v: Byte, k: nat): Bit
    requires k < 8
  {
    Prefix(v, k + 1) % 2
  }

  lemma PrefixStart(v: Byte)
    ensures Prefix(v, 0) == 0 && Prefix(v, 7) == v / 2 && BitAt(v, 7) == v % 2
  {
    assert Prefix(v, 7) == v / 2 && Prefix(v, 6) == v / 2 / 2 && Prefix(v, 5) == v / 2 / 2 / 2;
    assert Prefix(v, 4) == v / 0x10 && Prefix(v, 3) == v / 0x20 && Prefix(v, 2) == v / 0x40 && Prefix(v, 1) == v / 0x80;
  }

  lemma PrefixStep(v: Byte, k: nat)
    requires k < 8
    ensures ShiftIn(Prefix(v, k), BitAt(v, k)) == Prefix(v, k + 1)
  {
  }

  /** Clocks in the bits of `v` from the `k`-th on. */
  function SendBits(large: bool, c: Chip, v: Byte, k: nat): Chip
    requires k <= 8
    decreases 8 - k
  {
    if k == 8 then c else SendBits(large, Clock(large, c, BitAt(v, k)), v, k + 1)
  }

  /** A byte and the clock pulse of its acknowledgement. */
  function Send(large: bool, c: Chip, v: Byte): Chip
  {
    Clock(large, SendBits(large, c, v, 0), 1)
  }

  /** Nothing that a further clock pulse could complete is under way. */
  predicate Quiet(c: Chip)
  {
    !(c.mode == Write && c.bitcount == 7)
  }

  /** The cells once a start has been made: its clock pulse completes a byte that is one bit
      short. */
  function Finished(c: Chip): Cells
  {
    if Quiet(c) then c.data else c.data[c.word := ShiftIn(c.latch, 1)]
  }

  lemma StartResets(large: bool, c: Chip)
    ensures var c' := Start(large, c);
      c'.mode == Address && c'.bitcount == 0 && c'.addr == 0 && c'.data == Finished(c)
    ensures c.mode == Write && c.bitcount < 7 ==> Start(large, c).word == c.word
  {
    hide Clock, Port, Line;
    ClockRises(large, c, 1);
    LineBits(large, Clock(large, c, 1), 0, 1);
  }

  lemma StopRests(large: bool, c: Chip)
    requires Quiet(c)
    ensures Stop(large, c).mode == Standby && Stop(large, c).data == c.data
  {
    hide Clock, Port, Line;
    ClockRises(large, c, 0);
    LineBits(large, Clock(large, c, 0), 1, 1);
  }

  /** The bits of the device address but the last, which selects reading or writing. */
  lemma {:induction false} SendAddress(large: bool, c: Chip, v: Byte, k: nat)
    requires k <= 7 && c.mode == Address && c.bitcount == k && c.addr == Prefix(v, k)
    ensures var c' := SendBits(large, c, v, k);
      && c'.data == c.data && c'.bitcount == 8
      && c'.mode == (if v % 2 == 1 then Read else if large then Word else Write)
      && c'.word == (if large then c.word else v / 2)
    decreases 8 - k
  {
    hide Clock, Prefix, Port, BitAt;
    ClockRises(large, c, BitAt(v, k));
    if k < 7 {
      PrefixStep(v, k);
      SendAddress(large, Clock(large, c, BitAt(v, k)), v, k + 1);
    } else {
      PrefixStart(v);
      SendNothing(large, Clock(large, c, BitAt(v, k)), v);
      assert SendBits(large, c, v, 7) == Clock(large, c, BitAt(v, 7));
    }
  }

  lemma SendNothing(large: bool, c: Chip, v: Byte)
    ensures SendBits(large, c, v, 8) == c
  {
  }

  lemma {:induction false} SendWord(large: bool, c: Chip, v: Byte, k: nat)
    requires k <= 7 && c.mode == Word && c.bitcount == 9 + k && c.word == Prefix(v, k)
    ensures var c' := SendBits(large, c, v, k);
      c'.data == c.data && c'.bitcount == 8 && c'.mode == Write && c'.word == v
    decreases 8 - k
  {
    hide Clock, Prefix, Port, BitAt;
    ClockRises(large, c, BitAt(v, k));
    PrefixStep(v, k);
    PrefixDone(v);
    if k < 7 {
      SendWord(large, Clock(large, c, BitAt(v, k)), v, k + 1);
    } else {
      SendNothing(large, Clock(large, c, BitAt(v, k)), v);
    }
  }

  lemma PrefixDone(v: Byte)
    ensures Prefix(v, 8) == v
  {
  }

  lemma {:induction false} SendData(large: bool, c: Chip, v: Byte, k: nat)
    requires k <= 7 && c.mode == Write && c.bitcount == k && c.latch == Prefix(v, k)
    ensures var c' := SendBits(large, c, v, k);
      c'.mode == Write && c'.bitcount == 8 && c'.data == c.data[c.word := v] && c'.word == Next(c.word)
    decreases 8 - k
  {
    hide Clock, Prefix, Port, BitAt, ShiftIn;
    ClockRises(large, c, BitAt(v, k));
    PrefixStep(v, k);
    PrefixDone(v);
    if k < 7 {
      SendData(large, Clock(large, c, BitAt(v, k)), v, k + 1);
    } else {
      SendNothing(large, Clock(large, c, BitAt(v, k)), v);
      assert SendBits(large, c, v, 7) == Clock(large, c, BitAt(v, 7));
    }
  }

  // Whole bytes.

  lemma SentAddress(large: bool, c: Chip, v: Byte)
    requires c.mode == Address && c.bitcount == 0 && c.addr == 0
    ensures var c' := Send(large, c, v);
      && c'.data == c.data
      && (v % 2 == 0 && large ==> c'.mode == Word && c'.bitcount == 9 && c'.word == 0)
      && (v % 2 == 0 && !large ==> c'.mode == Write && c'.bitcount == 0 && c'.latch == 0 && c'.word == v / 2)
      && (v % 2 == 1 ==>
            && c'.mode == Read && c'.bitcount == 0 && c'.word == (if large then c.word else v / 2)
            && c'.latch == c.data[c'.word])
  {
    hide Clock, Prefix, SendBits;
    PrefixStart(v);
    SendAddress(large, c, v, 0);
    ClockRises(large, SendBits(large, c, v, 0), 1);
  }

  lemma SentWord(large: bool, c: Chip, v: Byte)
    requires c.mode == Word && c.bitcount == 9 && c.word == 0
    ensures var c' := Send(large, c, v);
      && c'.data == c.data && c'.mode == Write && c'.bitcount == 0 && c'.latch == 0 && c'.word == v
  {
    hide Clock, Prefix, SendBits;
    PrefixStart(v);
    SendWord(large, c, v, 0);
    ClockRises(large, SendBits(large, c, v, 0), 1);
  }

  lemma SentData(large: bool, c: Chip, v: Byte)
    requires c.mode == Write && c.bitcount == 0 && c.latch == 0
    ensures var c' := Send(large, c, v);
      && c'.data == c.data[c.word := v] && c'.mode == Write && c'.bitcount == 0 && c'.latch == 0
      && c'.word == Next(c.word)
  {
    hide Clock, Prefix, SendBits;
    PrefixStart(v);
    SendData(large, c, v, 0);
    ClockRises(large, SendBits(large, c, v, 0), 1);
  }

  datatype Received<T> = Received(chip: Chip, value: T)

  /** What the port shows: the output bit in place 4. */
  function Shown(c: Chip): Byte
  {
    0x10 * c.out
  }

  /** Eight clock pulses with the data line released, a bit of the byte after each. */
  function ReceiveBits(large: bool, c: Chip, acc: nat, k: nat): Received<nat>
    requires k <= 8
    decreases 8 - k
  {
    if k == 8 then Received(c, acc)
    else
      var c' := Clock(large, c, 1);
      ReceiveBits(large, c', 2 * acc + Shown(c') / 0x10 % 2, k + 1)
  }

  function Doubled(v: nat, k: nat): nat
  {
    if k == 0 then v else 2 * Doubled(v, k - 1)
  }

  lemma ShownOut(c: Chip)
    ensures Shown(c) / 0x10 % 2 == c.out
  {
  }

  lemma TopBitOut(acc: nat, latch: Byte)
    ensures 0x100 * (2 * acc + latch / 0x80) + 2 * latch % 0x100 == 2 * (0x100 * acc + latch)
  {
  }

  /** The bits received and the bits left in the latch are the byte, moved up. */
  lemma {:induction false} ReceivedBits(large: bool, c: Chip, acc: nat, k: nat, v: Byte)
    requires k < 8 && c.mode == Read && c.bitcount == k
    requires 0x100 * acc + c.latch == Doubled(v, k)
    ensures var r := ReceiveBits(large, c, acc, k);
      && r.value == v && r.chip.data == c.data && r.chip.mode == Read && r.chip.bitcount == 8
      && r.chip.word == Next(c.word)
    decreases 8 - k
  {
    hide Clock, Port, Shown;
    ClockRises(large, c, 1);
    var c' := Clock(large, c, 1);
    var acc' := 2 * acc + c.latch / 0x80;
    ShownOut(c');
    assert ReceiveBits(large, c, acc, k) == ReceiveBits(large, c', acc', k + 1);
    TopBitOut(acc, c.latch);
    if k < 7 {
      ReceivedBits(large, c', acc', k + 1, v);
    } else {
      DoubledByte(v);
    }
  }

  lemma DoubledByte(v: nat)
    ensures Doubled(v, 8) == 0x100 * v
  {
    assert Doubled(v, 1) == 2 * v;
    assert Doubled(v, 2) == 2 * Doubled(v, 1);
    assert Doubled(v, 4) == 4 * Doubled(v, 2);
    assert Doubled(v, 6) == 4 * Doubled(v, 4);
  }

  /** Sequential read: a byte and an acknowledgement for each cell. */
  function ReadBytes(large: bool, c: Chip, n: nat): Received<seq<nat>>
    decreases n
  {
    if n == 0 then Received(c, [])
    else
      var first := ReceiveBits(large, c, 0, 0);
      var rest := ReadBytes(large, Clock(large, first.chip, 0), n - 1);
      Received(rest.chip, [first.value] + rest.value)
  }

  function WriteBytes(large: bool, c: Chip, bytes: seq<Byte>): Chip
    decreases |bytes|
  {
    if bytes == [] then c else WriteBytes(large, Send(large, c, bytes[0]), bytes[1..])
  }

  // The cells as a ring of 256.

  function CellAt(word: Byte, i: nat): Byte
  {
    (word + i) % 0x100
  }

  /** `bytes` laid from the cell `word` on. */
  predicate Holds(data: Cells, word: Byte, bytes: seq<nat>)
  {
    forall i :: 0 <= i < |bytes| ==> data[CellAt(word, i)] == bytes[i]
  }

  /** The cells outside those `n` from `word` on are as they were. */
  predicate SameOutside(before: Cells, after: Cells, word: Byte, n: nat)
  {
    forall a: Byte :: (a - word) % 0x100 >= n ==> after[a] == before[a]
  }

  lemma CellNext(word: Byte, i: nat)
    ensures CellAt(Next(word), i) == CellAt(word, i + 1)
  {
  }

  lemma Apart(word: Byte, a: Byte)
    requires a != word
    ensures (a - word) % 0x100 >= 1 && (a - Next(word)) % 0x100 == (a - word) % 0x100 - 1
  {
  }

  lemma {:induction false} WritesHold(large: bool, c: Chip, bytes: seq<Byte>)
    requires |bytes| <= 0x100 && c.mode == Write && c.bitcount == 0 && c.latch == 0
    ensures var c' := WriteBytes(large, c, bytes);
      && c'.mode == Write && c'.bitcount == 0
      && Holds(c'.data, c.word, bytes) && SameOutside(c.data, c'.data, c.word, |bytes|)
    decreases |bytes|
  {
    hide Send, Next, CellAt;
    if bytes != [] {
      SentData(large, c, bytes[0]);
      var mid := Send(large, c, bytes[0]);
      WritesHold(large, mid, bytes[1..]);
      var c' := WriteBytes(large, c, bytes);
      forall a: Byte | (a - c.word) % 0x100 >= |bytes| ensures c'.data[a] == c.data[a] {
        Apart(c.word, a);
      }
      forall i | 0 <= i < |bytes| ensures c'.data[CellAt(c.word, i)] == bytes[i] {
        if i == 0 {
          FirstCell(c.word);
        } else {
          CellNext(c.word, i - 1);
        }
      }
    }
  }

  /** The first cell lies outside the 255 that follow it. */
  lemma FirstCell(word: Byte)
    ensures CellAt(word, 0) == word && (word - Next(word)) % 0x100 == 0xFF
  {
  }

  lemma {:induction false} ReadsHold(large: bool, c: Chip, n: nat)
    requires c.mode == Read && c.bitcount == 0 && c.latch == c.data[c.word]
    ensures var r := ReadBytes(large, c, n);
      && |r.value| == n && Holds(c.data, c.word, r.value) && r.chip.data == c.data && r.chip.mode == Read
    decreases n
  {
    hide Clock, ReceiveBits, CellAt, Next;
    if n > 0 {
      ReceivedBits(large, c, 0, 0, c.latch);
      var first := ReceiveBits(large, c, 0, 0);
      ClockRises(large, first.chip, 0);
      ReadsHold(large, Clock(large, first.chip, 0), n - 1);
      var r := ReadBytes(large, c, n);
      FirstCell(c.word);
      forall i | 0 <= i < n ensures c.data[CellAt(c.word, i)] == r.value[i] {
        if i > 0 {
          CellNext(c.word, i - 1);
        }
      }
    }
  }

  // Whole transfers.

  /** A word address the chip can be given: the small one takes seven bits. */
  predicate Addressable(large: bool, word: Byte)
  {
    large || word < 0x80
  }

  /** A start and the address byte: seven bits and the choice of reading. */
  function Call(large: bool, c: Chip, address: Seven, reading: Bit): Chip
  {
    Send(large, Start(large, c), 2 * address + reading)
  }

  /** The chip made ready to take bytes from `word` on. `device` is what the
      large chip is called by; the small one is called by the word. */
  function OpenWrite(large: bool, c: Chip, device: Seven, word: Byte): Chip
    requires Addressable(large, word)
  {
    if large then Send(large, Call(large, c, device, 0), word) else Call(large, c, word, 0)
  }

  /** The chip made ready to give bytes from `word` on, for the large one by a repeated start. */
  function OpenRead(large: bool, c: Chip, device: Seven, word: Byte): Chip
    requires Addressable(large, word)
  {
    if large then Call(large, OpenWrite(large, c, device, word), device, 1) else Call(large, c, word, 1)
  }

  function WriteTransfer(large: bool, c: Chip, device: Seven, word: Byte, bytes: seq<Byte>): Chip
    requires Addressable(large, word)
  {
    Stop(large, WriteBytes(large, OpenWrite(large, c, device, word), bytes))
  }

  function ReadTransfer(large: bool, c: Chip, device: Seven, word: Byte, n: nat): Received<seq<nat>>
    requires Addressable(large, word)
  {
    var r := ReadBytes(large, OpenRead(large, c, device, word), n);
    Received(Stop(large, r.chip), r.value)
  }

  lemma OpenedWrite(large: bool, c: Chip, device: Seven, word: Byte)
    requires Addressable(large, word)
    ensures var c' := OpenWrite(large, c, device, word);
      c'.data == Finished(c) && c'.mode == Write && c'.bitcount == 0 && c'.latch == 0 && c'.word == word
  {
    hide Send, Start;
    StartResets(large, c);
    if large {
      SentAddress(large, Start(large, c), 2 * device);
      SentWord(large, Call(large, c, device, 0), word);
    } else {
      SentAddress(large, Start(large, c), 2 * word);
    }
  }

  lemma OpenedRead(large: bool, c: Chip, device: Seven, word: Byte)
    requires Addressable(large, word)
    ensures var c' := OpenRead(large, c, device, word);
      && c'.data == Finished(c) && c'.mode == Read && c'.bitcount == 0 && c'.word == word
      && c'.latch == Finished(c)[word]
  {
    hide Send, Start, OpenWrite;
    if large {
      OpenedWrite(large, c, device, word);
      var open := OpenWrite(large, c, device, word);
      StartResets(large, open);
      SentAddress(large, Start(large, open), 2 * device + 1);
    } else {
      StartResets(large, c);
      SentAddress(large, Start(large, c), 2 * word + 1);
    }
  }

  /** A write transfer stores its bytes and touches no other cell, but for a byte that the
      start may finish. */
  lemma WriteStores(large: bool, c: Chip, device: Seven, word: Byte, bytes: seq<Byte>)
    requires Addressable(large, word) && |bytes| <= 0x100
    ensures var c' := WriteTransfer(large, c, device, word, bytes);
      && c'.mode == Standby
      && Holds(c'.data, word, bytes) && SameOutside(Finished(c), c'.data, word, |bytes|)
  {
    hide OpenWrite, WriteBytes, Stop, Holds, SameOutside;
    OpenedWrite(large, c, device, word);
    var open := OpenWrite(large, c, device, word);
    WritesHold(large, open, bytes);
    StopRests(large, WriteBytes(large, open, bytes));
  }

  /** A read transfer gives the cells from `word` on as the start leaves them. */
  lemma ReadGives(large: bool, c: Chip, device: Seven, word: Byte, n: nat)
    requires Addressable(large, word)
    ensures var r := ReadTransfer(large, c, device, word, n);
      && r.chip.mode == Standby && r.chip.data == Finished(c)
      && |r.value| == n && Holds(Finished(c), word, r.value)
  {
    hide OpenRead, ReadBytes, Stop, Holds;
    OpenedRead(large, c, device, word);
    var open := OpenRead(large, c, device, word);
    ReadsHold(large, open, n);
    StopRests(large, ReadBytes(large, open, n).chip);
  }

  /** What a transfer wrote, the next read from the same word gives back. */
  lemma RoundTrip(large: bool, c: Chip, device: Seven, word: Byte, bytes: seq<Byte>)
    requires Addressable(large, word) && |bytes| <= 0x100
    ensures ReadTransfer(large, WriteTransfer(large, c, device, word, bytes), device, word, |bytes|).value == bytes
  {
    hide WriteTransfer, ReadTransfer, CellAt;
    WriteStores(large, c, device, word, bytes);
    var c' := WriteTransfer(large, c, device, word, bytes);
    ReadGives(large, c', device, word, |bytes|);
  }

  // The chip updated in place.

  class Device {
    const large: bool
    const data: array<Byte>
    var mode: Mode
    var addr: Byte
    var word: Byte
    var latch: Byte
    var bitcount: Byte
    var sda: Bit
    var scl: Bit
    var out: Bit
    var oe: Bit

    ghost predicate Valid()
      reads this
    {
      data.Length == 0x100
    }

    ghost function State(): Chip
      requires Valid()
      reads this, data
    {
      Chip(data[..], mode, addr, word, latch, bitcount, sda, scl, out, oe)
    }

    /** Clears the registers; the cells and the output bit keep what they held. */
    method Init()
      requires Valid()
      modifies this
      ensures Valid() && State() == Chip(old(data[..]), Standby, 0, 0, 0, 0, 0, 0, old(out), 0)
    {
      addr, word, latch, bitcount, sda, scl, oe := 0, 0, 0, 0, 0, 0, 0;
      mode := Standby;
    }

    method Clocked(bit: Bit)
      requires Valid()
      modifies this, data
      ensures Valid() && State() == Rise(large, old(State()), bit)
    {
      match mode
      case Standby =>
      case Address =>
        if bitcount < 7 {
          addr := ShiftIn(addr, bit);
        } else {
          if !large {
            word := addr;
          }
          if bit == 1 {
            mode := Read;
          } else if large {
            mode := Word;
          } else {
            mode := Write;
          }
        }
        bitcount := Next(bitcount);
      case Word =>
        if bitcount == 8 {
          word := 0;
          out := 0;
        } else {
          word := ShiftIn(word, bit);
          if bitcount == 16 {
            bitcount := 7;
            mode := Write;
          }
        }
        bitcount := Next(bitcount);
      case Read =>
        if bitcount == 8 {
          out := 0;
          latch := data[word];
          bitcount := 0;
        } else {
          out := latch / 0x80;
          latch := 2 * latch % 0x100;
          bitcount := Next(bitcount);
          if bitcount == 8 {
            word := Next(word);
          }
        }
      case Write =>
        if bitcount == 8 {
          out := 0;
          latch := 0;
          bitcount := 0;
        } else {
          latch := ShiftIn(latch, bit);
          bitcount := Next(bitcount);
          if bitcount == 8 {
            data[word] := latch;
            word := Next(word);
          }
        }
    }

    method PortWrite(value: Byte)
      requires Valid()
      modifies this, data
      ensures Valid() && State() == Port(large, old(State()), value)
    {
      hide Rise;
      var sdaIn, sclIn := value / 0x40 % 2, value / 0x20 % 2;
      oe := value / 0x80;
      if scl == 1 && sclIn == 1 {
        if sda == 1 && sdaIn == 0 {
          mode, bitcount, addr := Address, 0, 0;
        } else if sda == 0 && sdaIn == 1 {
          mode := Standby;
        }
      } else if scl == 0 && sclIn == 1 {
        RiseIgnoresLines(large, old(State()), sdaIn, sda, scl, oe);
        Clocked(sdaIn);
      }
      sda := sdaIn;
      scl := sclIn;
    }

    method PortRead() returns (value: Byte)
      requires Valid()
      ensures value == Shown(State())
    {
      value := 0x10 * out;
    }
  }
}
