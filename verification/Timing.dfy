/** The clock of the NES: how many dots a video frame lasts, and how the processor's cycles
    keep up with them. What an instruction does besides taking time is left to an
    environment that may answer anything. */
module Timing {
  import opened Basics

  /** The causes an interrupt can have. */
  datatype Cause = Ext | Ext2 | Reset | Nmi2 | Nmi | Dpcm | FrameCount | Temp

  /** Registers of the picture unit, its first sprite's place, whether the mapper has a hook for
      the horizontal blank, and whether a sample is being played. */
  datatype Pins = Pins(control: Byte, mask: Byte, sprite: Byte, hblank: bool, sample: bool) {
    predicate Shows()
    {
      mask / 8 % 2 == 1 || mask / 16 % 2 == 1
    }

    /** The mapper is to be told of the horizontal blank. */
    predicate Blanks()
    {
      hblank && Shows() && !(control / 8 % 2 == 1 && control / 16 % 2 == 1 && control / 32 % 2 == 0)
    }
  }

  /** What instructions and mapper hooks can do to the machine. */
  datatype Effect = Effect(raised: set<Cause>, cleared: set<Cause>, pins: Pins)

  /** One instruction: the byte fetched, the cycles sample fetching steals, the cycles the body
      adds, whether it jumps to itself, and the state it leaves. */
  datatype Turn = Turn(opcode: Byte, stolen: nat, body: nat, spins: bool, masked: bool, jammed: bool, effect: Effect)

  // Instruction times, sixteen opcodes a row.

  function RowsTo7F(): seq<seq<int>>
  {
    [[7, 6, 2, 8, 3, 3, 5, 5, 3, 2, 2, 2, 4, 4, 6, 6],
     [2, 5, 2, 8, 4, 4, 6, 6, 2, 4, 2, 7, 4, 4, 7, 7],
     [6, 6, 2, 8, 3, 3, 5, 5, 4, 2, 2, 2, 4, 4, 6, 6],
     [2, 5, 2, 8, 4, 4, 6, 6, 2, 4, 2, 7, 4, 4, 7, 7],
     [6, 6, 2, 8, 3, 3, 5, 5, 3, 2, 2, 2, 3, 4, 6, 6],
     [2, 5, 2, 8, 4, 4, 6, 6, 2, 4, 2, 7, 4, 4, 7, 7],
     [6, 6, 2, 8, 3, 3, 5, 5, 4, 2, 2, 2, 5, 4, 6, 6],
     [2, 5, 2, 8, 4, 4, 6, 6, 2, 4, 2, 7, 4, 4, 7, 7]]
  }

  function RowsFrom80(): seq<seq<int>>
  {
    [[2, 6, 2, 6, 3, 3, 3, 3, 2, 2, 2, 2, 4, 4, 4, 4],
     [2, 6, 2, 6, 4, 4, 4, 4, 2, 5, 2, 5, 5, 5, 5, 5],
     [2, 6, 2, 6, 3, 3, 3, 3, 2, 2, 2, 2, 4, 4, 4, 4],
     [2, 5, 2, 5, 4, 4, 4, 4, 2, 4, 2, 4, 4, 4, 4, 4],
     [2, 6, 2, 8, 3, 3, 5, 5, 2, 2, 2, 2, 4, 4, 6, 6],
     [2, 5, 2, 8, 4, 4, 6, 6, 2, 4, 2, 7, 4, 4, 7, 7],
     [2, 6, 3, 8, 3, 3, 5, 5, 2, 2, 2, 2, 4, 4, 6, 6],
     [2, 5, 2, 8, 4, 4, 6, 6, 2, 4, 2, 7, 4, 4, 7, 7]]
  }

  predicate Timed(row: seq<int>)
  {
    |row| == 16 && forall k :: 0 <= k < 16 ==> 2 <= row[k] <= 8
  }

  lemma RowsTo7FTimed(n: nat)
    requires n < 8
    ensures |RowsTo7F()| == 8 && Timed(RowsTo7F()[n])
  {
  }

  lemma RowsFrom80Timed(n: nat)
    requires n < 8
    ensures |RowsFrom80()| == 8 && Timed(RowsFrom80()[n])
  {
  }

  /** No opcode is free: the fetch alone takes two to eight cycles. */
  function FetchTime(opcode: Byte): (t: nat)
    ensures 2 <= t <= 8
  {
    if opcode < 0x80 then
      RowsTo7FTimed(opcode / 16);
      RowsTo7F()[opcode / 16][opcode % 16]
    else
      RowsFrom80Timed(opcode / 16 - 8);
      RowsFrom80()[opcode / 16 - 8][opcode % 16]
  }

  // The same times by the way an instruction addresses memory. A row of the table with an even
  // number holds immediate, zero page and absolute instructions and those through (zp,X), one
  // with an odd number the indexed ones and those through (zp),Y. Rows 8 and 9 store, rows A
  // and B load; the others read and write back in the last two columns of each four.

  function PlainTime(row: nat, column: nat): nat
  {
    match column
    case 0 => if row == 0 then 7 else if row == 2 || row == 4 || row == 6 then 6 else 2
    case 1 => 6
    case 2 => if row == 14 then 3 else 2
    case 3 => if row == 8 || row == 10 then 6 else 8
    case 4 => 3
    case 5 => 3
    case 6 => if row == 8 || row == 10 then 3 else 5
    case 7 => if row == 8 || row == 10 then 3 else 5
    case 8 => if row == 0 || row == 4 then 3 else if row == 2 || row == 6 then 4 else 2
    case 9 => 2
    case 10 => 2
    case 11 => 2
    case 12 => if row == 4 then 3 else if row == 6 then 5 else 4
    case 13 => 4
    case _ => if row == 8 || row == 10 then 4 else 6
  }

  function IndexedTime(row: nat, column: nat): nat
  {
    match column
    case 0 => 2
    case 1 => if row == 9 then 6 else 5
    case 2 => 2
    case 3 => if row == 9 then 6 else if row == 11 then 5 else 8
    case 4 => 4
    case 5 => 4
    case 6 => if row == 9 || row == 11 then 4 else 6
    case 7 => if row == 9 || row == 11 then 4 else 6
    case 8 => 2
    case 9 => if row == 9 then 5 else 4
    case 10 => 2
    case 11 => if row == 9 then 5 else if row == 11 then 4 else 7
    case 12 => if row == 9 then 5 else 4
    case 13 => if row == 9 then 5 else 4
    case _ => if row == 9 then 5 else if row == 11 then 4 else 7
  }

  lemma FetchByMode(opcode: Byte)
    ensures FetchTime(opcode) ==
      if opcode / 16 % 2 == 0 then PlainTime(opcode / 16, opcode % 16) else IndexedTime(opcode / 16, opcode % 16)
  {
    hide PlainTime, IndexedTime, RowsTo7F, RowsFrom80;
    if opcode < 0x80 {
      LowRows(opcode / 16, opcode % 16);
    } else {
      HighRows(opcode / 16 - 8, opcode % 16);
    }
  }

  lemma LowRows(n: nat, k: nat)
    requires n < 8 && k < 16
    ensures |RowsTo7F()| == 8 && |RowsTo7F()[n]| == 16
    ensures RowsTo7F()[n][k] == if n % 2 == 0 then PlainTime(n, k) else IndexedTime(n, k)
  {
  }

  lemma HighRows(n: nat, k: nat)
    requires n < 8 && k < 16
    ensures |RowsFrom80()| == 8 && |RowsFrom80()[n]| == 16
    ensures RowsFrom80()[n][k] == if n % 2 == 0 then PlainTime(n + 8, k) else IndexedTime(n + 8, k)
  {
  }

  lemma TwoBits(q: nat)
    ensures q % 4 == q % 2 + 2 * (q / 2 % 2)
  {
  }

  lemma ThreeBits(q: nat)
    ensures q % 8 == q % 2 + 2 * (q / 2 % 2) + 4 * (q / 4 % 2)
  {
    TwoBits(q / 2);
    assert q % 8 == q % 2 + 2 * (q / 2 % 4) && q / 2 / 2 == q / 4;
  }

  lemma SpentWithin(count: nat)
    ensures 0 <= 48 * (count / 48) <= count
  {
  }

  // Dots.

  const LINE := 341

  /** The dots of a live frame that draws or idles `lines` lines after the vertical blank. */
  function FrameDots(perFrame: nat, lines: nat, kook: nat, extra: nat): int
  {
    LINE * (perFrame - 240 + lines) - kook + extra
  }

  /** A skipped frame, which always has 240 lines, lasts as long as a drawn one exactly when
      that one has 240 too. */
  lemma SkippedAsLong(perFrame: nat, lines: nat, kook: nat, extra: nat)
    ensures FrameDots(perFrame, 240, kook, extra) == FrameDots(perFrame, lines, kook, extra) <==> lines == 240
  {
  }

  /** With 290 normal lines it is 50 lines shorter. */
  lemma SkippedShorter(perFrame: nat, kook: nat, extra: nat)
    ensures FrameDots(perFrame, 240, kook, extra) == FrameDots(perFrame, 290, kook, extra) - 50 * LINE
  {
  }

  /** Overclocking adds a run of lines to the vertical blank. */
  function ExtraDots(overclock: bool, blankLines: nat): nat
  {
    if overclock && blankLines > 0 then LINE * blankLines - 12 else 0
  }

  /** The dots of `n` frames of which the first `dead` are dead, when each has 240 lines. */
  function RunDots(perFrame: nat, dead: nat, kook: nat, n: nat): int
    requires kook <= 1
    decreases n
  {
    if n == 0 then 0
    else if dead > 0 then LINE * perFrame + RunDots(perFrame, dead - 1, kook, n - 1)
    else FrameDots(perFrame, 240, kook, 0) + RunDots(perFrame, 0, 1 - kook, n - 1)
  }

  /** One dot is dropped every other live frame. */
  lemma {:induction false} EveryOtherFrame(perFrame: nat, dead: nat, kook: nat, n: nat)
    requires kook <= 1 && dead <= n
    ensures RunDots(perFrame, dead, kook, n) == LINE * perFrame * n - (n - dead + kook) / 2
    decreases n
  {
    if n > 0 {
      OneMore(LINE * perFrame, n);
      if dead > 0 {
        EveryOtherFrame(perFrame, dead - 1, kook, n - 1);
      } else {
        EveryOtherFrame(perFrame, 0, 1 - kook, n - 1);
      }
    }
  }

  lemma OneMore(x: int, n: int)
    ensures x * n == x + x * (n - 1)
  {
  }

  type Environment = nat -> Turn

  /** The processor as a value. */
  datatype Cpu = Cpu(pal: bool, count: int, cycles: nat, tcount: nat, irq: set<Cause>, masked: bool,
                     maskedBefore: bool, jammed: bool, overclocking: bool, pins: Pins, step: nat) {
    function Charged(n: nat): (c: Cpu)
      ensures c.count == count - 48 * n
    {
      this.(count := count - 48 * n, cycles := cycles + n, tcount := tcount + n)
    }

    /** The next answer of the environment takes effect. */
    function Told(env: Environment): (c: Cpu)
      ensures c.count == count && c.overclocking == overclocking
    {
      var e := env(step).effect;
      this.(irq := irq - e.cleared + e.raised, pins := e.pins, step := step + 1)
    }

    function Interrupted(): (c: Cpu)
      ensures c.count <= count
    {
      if Reset in irq then this.(jammed := false, maskedBefore := true, masked := true, irq := irq - {Reset, Temp})
      else if Nmi2 in irq then this.(irq := irq - {Nmi2, Temp} + {Nmi})
      else if jammed || (Nmi !in irq && maskedBefore) then this.(irq := irq - {Temp})
      else Charged(7).(masked := true, irq := irq - {Nmi, Temp})
    }

    function Fetched(env: Environment): (c: Cpu)
      ensures c.count == count - 48 * FetchTime(env(step).opcode)
    {
      this.(maskedBefore := masked).Told(env).Charged(FetchTime(env(step).opcode)).(tcount := 0)
    }

    function Spent(turn: Turn): (c: Cpu)
      ensures c.count <= count
    {
      Charged(turn.body + if overclocking then 0 else turn.stolen).(masked := turn.masked, jammed := turn.jammed)
    }

    /** A jump to itself takes up what is left of the run. */
    function Spun(spins: bool): (c: Cpu)
      ensures c.count <= count
    {
      if spins && count > 0 then Charged(count / 48) else this
    }

    function Executed(env: Environment): (c: Cpu)
      ensures c.count <= count - 96
    {
      Fetched(env).Spent(env(step)).Spun(env(step).spins)
    }

    /** Instructions and interrupts until all that is paid for is used up. */
    function UsedUp(env: Environment): Cpu
      decreases if count > 0 then count else 0
    {
      if count <= 0 then this
      else if irq == {} then Executed(env).UsedUp(env)
      else
        var c := Interrupted();
        if c.count <= 0 then c.(maskedBefore := c.masked) else c.Executed(env).UsedUp(env)
    }

    function Ran(env: Environment, n: nat): Cpu
    {
      this.(count := count + n * if pal then 15 else 16).UsedUp(env)
    }

    function ToldIf(env: Environment, b: bool): Cpu
    {
      if b then Told(env) else this
    }

    /** From dot 256 of a line to its last sixteen: the mapper is told after ten dots or after all. */
    function Blanked(env: Environment): Cpu
    {
      if pins.Blanks() then Ran(env, 6).Ran(env, 4).Told(env).Ran(env, 59)
      else
        var c := Ran(env, 6).Ran(env, 63);
        c.ToldIf(env, c.pins.Blanks())
    }

    /** Lines of a skipped frame, from dot 256 of one to dot 256 of the next, or the end of the last. */
    function Passed(env: Environment, n: nat): Cpu
      decreases n
    {
      if n == 0 then this
      else ToldIf(env, pins.Shows()).Ran(env, if n == 1 then 85 else LINE).Passed(env, n - 1)
    }
  }

  /** The processor, with the registers its instructions and the mapper's hooks can change. */
  class Processor {
    const env: Environment
    const pal: bool
    var count: int
    var cycles: nat
    var tcount: nat
    var irq: set<Cause>
    var masked: bool
    var maskedBefore: bool
    var jammed: bool
    var overclocking: bool
    var pins: Pins

    /** Answers of the environment used so far. */
    var step: nat
    /** Dots the picture unit has asked for. */
    ghost var dots: int
    /** Cycles handed to the mapper's hook. */
    ghost var reported: nat
    /** Cycles of the latest instruction or interrupt. */
    ghost var last: nat

    ghost function Now(): (c: Cpu)
      reads this
    {
      Cpu(pal, count, cycles, tcount, irq, masked, maskedBefore, jammed, overclocking, pins, step)
    }

    /** What dots pay for, in units of which a cycle is 48. */
    function Paid(n: int): int
    {
      if pal then 15 * n else 16 * n
    }

    /** No cycle is lost: each is paid for in dots, or owed, and each reaches the mapper. */
    ghost predicate Balanced()
      reads this
    {
      48 * cycles + count == Paid(dots) && reported + tcount == cycles
    }

    /** The processor is never behind, and ahead by less than its latest instruction. */
    ghost predicate Abreast()
      reads this
    {
      -48 * last < count <= 0
    }

    ghost predicate Valid()
      reads this
    {
      Balanced() && Abreast()
    }

    constructor (env: Environment, pal: bool)
      ensures Valid() && dots == 0
      ensures this.env == env
      ensures Now() == Cpu(pal, 0, 0, 0, {Reset}, false, false, false, false, Pins(0, 0, 0, false, false), 0)
    {
      this.env, this.pal := env, pal;
      count, cycles, tcount, irq, masked, maskedBefore, jammed := 0, 0, 0, {Reset}, false, false, false;
      pins, overclocking := Pins(0, 0, 0, false, false), false;
      step, dots, reported, last := 0, 0, 0, 1;
    }

    method AddCycles(n: nat)
      modifies `count, `cycles, `tcount, `last
      ensures count == old(count) - 48 * n && cycles == old(cycles) + n
      ensures tcount == old(tcount) + n && last == old(last) + n && Now() == old(Now()).Charged(n)
    {
      last := last + n;
      tcount := tcount + n;
      count := count - 48 * n;
      cycles := cycles + n;
    }

    /** The next answer of the environment. */
    method Affect() returns (turn: Turn)
      modifies `irq, `pins, `step
      ensures turn == env(old(step)) && step == old(step) + 1 && Now() == old(Now()).Told(env)
    {
      turn := env(step);
      step := step + 1;
      var e := turn.effect;
      irq := irq - e.cleared + e.raised;
      pins := e.pins;
    }

    /** A mapper hook called by the picture unit. */
    method Hook()
      requires Valid()
      modifies this
      ensures Valid() && dots == old(dots) && Now() == old(Now()).Told(env)
    {
      var _ := Affect();
    }

    method TriggerNmi()
      requires Valid()
      modifies `irq
      ensures Valid() && dots == old(dots) && irq == old(irq) + {Nmi}
    {
      irq := irq + {Nmi};
    }

    method SetOverclocking(on: bool)
      requires Valid()
      modifies `overclocking
      ensures Valid() && dots == old(dots) && overclocking == on
    {
      overclocking := on;
    }

    method EndSample()
      requires Valid()
      modifies `pins
      ensures Valid() && dots == old(dots) && pins == old(pins).(sample := false)
    {
      pins := pins.(sample := false);
    }

    /** Takes the most urgent interrupt: a reset, a delayed or due NMI, or a request that the
        flag did not mask one instruction ago. */
    method Interrupt()
      requires irq != {}
      modifies `count, `cycles, `tcount, `irq, `masked, `maskedBefore, `jammed, `last
      ensures (count == old(count) && cycles == old(cycles) && tcount == old(tcount) && last == old(last))
           || (count == old(count) - 48 * 7 && cycles == old(cycles) + 7 && tcount == old(tcount) + 7 && last == 7)
      ensures cycles != old(cycles) <==>
        && Reset !in old(irq) && Nmi2 !in old(irq) && !old(jammed)
        && (Nmi in old(irq) || !old(maskedBefore))
      ensures irq == old(irq) - {Temp}
        - (if Reset in old(irq) then {Reset}
           else if Nmi2 in old(irq) then {Nmi2}
           else if Nmi in old(irq) && !old(jammed) then {Nmi} else {})
        + (if Reset !in old(irq) && Nmi2 in old(irq) then {Nmi} else {})
      ensures Now() == old(Now()).Interrupted()
      ensures masked == (old(masked) || Reset in old(irq) || cycles != old(cycles))
      ensures maskedBefore == (old(maskedBefore) || Reset in old(irq)) && jammed == (old(jammed) && Reset !in old(irq))
    {
      if Reset in irq {
        jammed := false;
        maskedBefore, masked := true, true;
        irq := irq - {Reset};
      } else if Nmi2 in irq {
        irq := irq - {Nmi2};
        irq := irq + {Nmi};
      } else if Nmi in irq {
        if !jammed {
          last := 0;
          AddCycles(7);
          masked := true;
          irq := irq - {Nmi};
        }
      } else if !maskedBefore && !jammed {
        last := 0;
        AddCycles(7);
        masked := true;
      }
      irq := irq - {Temp};
    }

    /** Fetches an instruction and tells the mapper of the time since the one before. */
    method Fetch() returns (turn: Turn)
      modifies `count, `cycles, `tcount, `last, `reported, `maskedBefore, `irq, `pins, `step
      ensures turn == env(old(step)) && step == old(step) + 1 && Now() == old(Now()).Fetched(env)
      ensures last == FetchTime(turn.opcode) && count == old(count) - 48 * last && cycles == old(cycles) + last
      ensures tcount == 0 && reported == old(reported) + old(tcount) + last && maskedBefore == old(masked)
    {
      hide FetchTime, Cpu.Told, Cpu.Charged;
      maskedBefore := masked;
      turn := Affect();
      last := 0;
      AddCycles(FetchTime(turn.opcode));
      reported := reported + tcount;
      tcount := 0;
    }

    /** The time of an instruction beyond its fetch, and the flags it leaves. */
    method Spend(turn: Turn)
      modifies `count, `cycles, `tcount, `last, `masked, `jammed
      ensures 48 * cycles + count == old(48 * cycles + count) && tcount - cycles == old(tcount - cycles)
      ensures count + 48 * last == old(count + 48 * last)
      ensures cycles == old(cycles) + turn.body + if overclocking then 0 else turn.stolen
      ensures masked == turn.masked && jammed == turn.jammed && Now() == old(Now()).Spent(turn)
    {
      hide Cpu.Charged;
      AddCycles((if overclocking then 0 else turn.stolen) + turn.body);
      masked, jammed := turn.masked, turn.jammed;
    }

    /** A jump to itself uses up the run. */
    method Spin(spins: bool)
      modifies `count, `cycles, `tcount, `last
      ensures 48 * cycles + count == old(48 * cycles + count) && tcount - cycles == old(tcount - cycles)
      ensures count + 48 * last == old(count + 48 * last) && count <= old(count)
      ensures if spins then count < 48 else cycles == old(cycles)
      ensures Now() == old(Now()).Spun(spins)
    {
      hide Cpu.Charged;
      if spins && count > 0 {
        SpentWithin(count);
        AddCycles(count / 48);
      }
    }

    /** Executes one instruction: the fetch and what its body adds, and the cycles stolen for a
        sample unless overclocked; one that jumps to itself takes up all that is paid for. */
    method Execute()
      requires count > 0 && reported + tcount == cycles
      modifies `count, `cycles, `tcount, `last, `reported, `irq, `masked, `maskedBefore, `jammed, `pins, `step
      ensures step == old(step) + 1 && Now() == old(Now()).Executed(env)
      ensures var turn := env(old(step));
        && (if turn.spins then count < 48
            else cycles == old(cycles) + FetchTime(turn.opcode) + turn.body + if overclocking then 0 else turn.stolen)
        && masked == turn.masked && jammed == turn.jammed && maskedBefore == old(masked)
      ensures 48 * cycles + count == old(48 * cycles + count) && reported + tcount == cycles
      ensures -48 * last < count <= old(count) - 96
    {
      hide FetchTime, Cpu.Fetched, Cpu.Spent, Cpu.Spun;
      var turn := Fetch();
      Spend(turn);
      Spin(turn.spins);
    }

    /** Instructions and interrupts until all that is paid for is used up. */
    method UseUp()
      requires Balanced() && -48 * last < count
      modifies `count, `cycles, `tcount, `last, `reported, `irq, `masked, `maskedBefore, `jammed, `pins, `step
      ensures Valid() && Now() == old(Now()).UsedUp(env)
    {
      hide FetchTime, Cpu.Executed, Cpu.Interrupted;
      while count > 0
        invariant Balanced() && -48 * last < count && Now().UsedUp(env) == old(Now()).UsedUp(env)
        decreases count
      {
        if irq != {} {
          Interrupt();
          if count <= 0 {
            maskedBefore := masked;
            return;
          }
        }
        Execute();
      }
    }

    /** Lets the processor run for `n` dots. A cycle lasts three dots, on PAL three and a fifth; the
        cycles cover the dots, with less than the latest instruction to spare. */
    method Run(n: nat)
      requires Valid()
      modifies `count, `cycles, `tcount, `last, `reported, `irq, `masked, `maskedBefore, `jammed, `pins, `step, `dots
      ensures Valid() && dots == old(dots) + n && Now() == old(Now()).Ran(env, n)
      ensures 48 * cycles + count == (if pal then 15 else 16) * dots
      ensures !pal ==> dots <= 3 * cycles < dots + 3 * last
      ensures pal ==> 5 * dots <= 16 * cycles < 5 * dots + 16 * last
    {
      hide Cpu.UsedUp;
      count := count + n * if pal then 15 else 16;
      dots := dots + n;
      UseUp();
    }

    predicate Rendering()
      reads this
      ensures Rendering() <==> pins.Shows()
    {
      pins.mask / 8 % 4 != 0
    }

    predicate Blanking()
      reads this
      ensures Blanking() <==> pins.Blanks()
    {
      ThreeBits(pins.control / 8);
      assert pins.control / 8 / 2 == pins.control / 16 && pins.control / 8 / 4 == pins.control / 32;
      pins.hblank && Rendering() && pins.control / 8 % 8 != 3
    }
  }

  /** The picture unit. */
  class Console {
    const cpu: Processor
    const perFrame: nat
    const normalLines: nat
    const overclock: bool
    const blankLines: nat
    const postLines: nat
    const skip7bit: bool
    const mmc5: bool
    const hblank2: bool
    var kook: nat
    var dead: nat
    var scanline: nat
    var totalLines: nat
    /** Whether a sample kept the latest vertical blank from being overclocked. */
    ghost var spared: bool

    ghost predicate Valid()
      reads this, cpu
    {
      cpu.Valid() && kook <= 1 && normalLines >= 240 && perFrame >= 243
    }

    constructor (cpu: Processor, perFrame: nat, normalLines: nat, overclock: bool, blankLines: nat, postLines: nat,
                 skip7bit: bool, mmc5: bool, hblank2: bool)
      requires cpu.Valid() && normalLines >= 240 && perFrame >= 243
      ensures Valid() && this.cpu == cpu && kook == 0 && dead == 2 && scanline == 0 && !spared
      ensures this.perFrame == perFrame && this.normalLines == normalLines && this.overclock == overclock
      ensures this.blankLines == blankLines && this.postLines == postLines && this.skip7bit == skip7bit
      ensures this.mmc5 == mmc5 && this.hblank2 == hblank2
    {
      this.cpu, this.perFrame, this.normalLines, this.overclock := cpu, perFrame, normalLines, overclock;
      this.blankLines, this.postLines, this.skip7bit := blankLines, postLines, skip7bit;
      this.mmc5, this.hblank2 := mmc5, hblank2;
      kook, dead, scanline, totalLines, spared := 0, 2, 0, normalLines, false;
    }

    /** What the processor is after one line: 341 dots, with the mapper told at their places. */
    ghost function Line(c: Cpu, line: nat, total: nat): Cpu
    {
      if line >= 240 && line != total then c.Ran(cpu.env, 325).Ran(cpu.env, 16)
      else
        var d := c.ToldIf(cpu.env, mmc5).Ran(cpu.env, 256).Blanked(cpu.env);
        d.ToldIf(cpu.env, hblank2 && d.pins.Shows()).Ran(cpu.env, 16)
    }

    /** One line of the frame. */
    method DoLine()
      requires Valid()
      modifies `scanline, cpu
      ensures Valid() && cpu.dots == old(cpu.dots) + LINE && scanline == old(scanline) + 1
      ensures cpu.Now() == Line(old(cpu.Now()), old(scanline), totalLines)
    {
      hide Cpu.Ran, Cpu.UsedUp, Cpu.Told, Pins.Blanks, Pins.Shows, Processor.Rendering, Processor.Blanking,
        Processor.Valid, Cpu.Blanked;
      if scanline >= 240 && scanline != totalLines {
        cpu.Run(256 + 69);
        scanline := scanline + 1;
        cpu.Run(16);
        return;
      }
      if mmc5 {
        cpu.Hook();
      }
      cpu.Run(256);
      Blank();
      if hblank2 && cpu.Rendering() {
        cpu.Hook();
      }
      scanline := scanline + 1;
      cpu.Run(16);
    }

    /** The horizontal blank up to the next line's fetches, with the mapper's hook inside or after. */
    method Blank()
      requires Valid()
      modifies cpu
      ensures Valid() && cpu.dots == old(cpu.dots) + 85 - 16
      ensures cpu.Now() == old(cpu.Now()).Blanked(cpu.env)
    {
      hide Cpu.Ran, Cpu.UsedUp, Cpu.Told, Pins.Blanks, Pins.Shows, Processor.Rendering, Processor.Blanking,
        Processor.Valid;
      if cpu.Blanking() {
        cpu.Run(6);
        cpu.Run(4);
        cpu.Hook();
        cpu.Run(85 - 16 - 10);
      } else {
        cpu.Run(6);
        cpu.Run(85 - 6 - 16);
        if cpu.Blanking() {
          cpu.Hook();
        }
      }
    }

    ghost function Skipped(c: Cpu): Cpu
    {
      if c.pins.hblank then c.Ran(cpu.env, 256).Passed(cpu.env, 240)
      else if c.pins.sprite + 1 < 240
      then c.Ran(cpu.env, LINE * (c.pins.sprite + 1)).Ran(cpu.env, LINE * (239 - c.pins.sprite))
      else c.Ran(cpu.env, LINE * 240)
    }

    method SkipTelling()
      requires Valid()
      modifies `scanline, cpu
      ensures Valid() && cpu.dots == old(cpu.dots) + 240 * LINE - 256
      ensures cpu.Now() == old(cpu.Now()).Passed(cpu.env, 240)
    {
      hide Cpu.Ran, Cpu.UsedUp, Cpu.Told, Pins.Blanks, Pins.Shows, Processor.Rendering, Processor.Blanking,
        Processor.Valid;
      scanline := 0;
      while scanline < 240
        invariant Valid() && scanline <= 240
        invariant cpu.Now().Passed(cpu.env, 240 - scanline) == old(cpu.Now()).Passed(cpu.env, 240)
        invariant cpu.dots == old(cpu.dots) + LINE * scanline - if scanline == 240 then 256 else 0
      {
        if cpu.Rendering() {
          cpu.Hook();
        }
        cpu.Run(if scanline == 239 then 85 else 256 + 85);
        scanline := scanline + 1;
      }
    }

    /** A frame that is not drawn: 240 lines, along either way of timing the first sprite. */
    method Skip()
      requires Valid()
      modifies `scanline, cpu
      ensures Valid() && cpu.dots == old(cpu.dots) + 240 * LINE && cpu.Now() == Skipped(old(cpu.Now()))
    {
      hide Cpu.Ran, Cpu.UsedUp, Cpu.Told, Pins.Blanks, Pins.Shows, Processor.Rendering, Processor.Blanking,
        Processor.Valid, Cpu.Passed;
      var y := cpu.pins.sprite + 1;
      if cpu.pins.hblank {
        cpu.Run(256);
        SkipTelling();
      } else if y < 240 {
        cpu.Run((256 + 85) * y);
        cpu.Run((256 + 85) * (240 - y));
      } else {
        cpu.Run((256 + 85) * 240);
      }
    }

    /** The lines drawn when nothing cuts the frame short. */
    function MostLines(): nat
    {
      normalLines + if overclock then postLines else 0
    }

    /** A sample is being played that overclocking would spoil. */
    predicate Spared()
      reads this, cpu
    {
      cpu.pins.sample && skip7bit
    }

    /** What a line and what follows it leave; a drawn frame goes on from there or is cut. */
    ghost function Next(c: Cpu, line: nat, total: nat): (r: (Cpu, bool))
    {
      var d := Line(c, line, total);
      if line + 1 < normalLines || line + 1 == total then (d.(overclocking := false), false)
      else if d.pins.sample && skip7bit then (d, true)
      else (d.(overclocking := true), false)
    }

    /** The processor and the number of lines after the rest of a drawn frame. */
    ghost function Drawn(c: Cpu, line: nat, total: nat): (r: (Cpu, nat))
      decreases total - line
    {
      if line >= total then (c, line)
      else
        var n := Next(c, line, total);
        if n.1 then (n.0, line + 1) else Drawn(n.0, line + 1, total)
    }

    /** A line and what follows it: lines past the normal ones are overclocked, or cut off when
        a sample is played. */
    method NextLine() returns (cut: bool)
      requires Valid()
      modifies `scanline, cpu
      ensures Valid() && cpu.dots == old(cpu.dots) + LINE && scanline == old(scanline) + 1
      ensures cut <==> normalLines <= scanline && scanline != totalLines && Spared()
      ensures (cpu.Now(), cut) == Next(old(cpu.Now()), old(scanline), totalLines)
    {
      hide Cpu.Ran, Cpu.UsedUp, Cpu.Told, Pins.Blanks, Pins.Shows, Processor.Rendering, Processor.Blanking,
        Processor.Valid, Cpu.Blanked, Line;
      DoLine();
      cut := false;
      if scanline < normalLines || scanline == totalLines {
        cpu.SetOverclocking(false);
      } else if Spared() {
        cut := true;
      } else {
        cpu.SetOverclocking(true);
      }
    }

    /** The lines of a drawn frame, unless a sample played past the normal ones cuts it. */
    method DrawLines()
      requires Valid() && normalLines <= totalLines
      modifies `scanline, cpu
      ensures Valid() && cpu.dots == old(cpu.dots) + LINE * scanline && normalLines <= scanline <= totalLines
      ensures scanline == totalLines || skip7bit
      ensures (cpu.Now(), scanline) == Drawn(old(cpu.Now()), 0, totalLines)
    {
      hide Cpu.Ran, Cpu.UsedUp, Cpu.Told, Pins.Blanks, Pins.Shows, Processor.Rendering, Processor.Blanking,
        Processor.Valid, Cpu.Blanked, Next;
      scanline := 0;
      while scanline < totalLines
        invariant Valid() && scanline <= totalLines && cpu.dots == old(cpu.dots) + LINE * scanline
        invariant Drawn(cpu.Now(), scanline, totalLines) == Drawn(old(cpu.Now()), 0, totalLines)
        decreases totalLines - scanline
      {
        var cut := NextLine();
        if cut {
          break;
        }
      }
    }

    /** A frame that is drawn: all its lines, or the normal ones when a sample was played at
        its start, or as many as there were when one was played past the normal ones. */
    method Draw() returns (lines: nat)
      requires Valid()
      modifies `scanline, `totalLines, cpu
      ensures Valid() && cpu.dots == old(cpu.dots) + LINE * lines
      ensures normalLines <= lines <= MostLines()
      ensures old(Spared()) ==> lines == normalLines
      ensures !skip7bit ==> lines == MostLines()
      ensures var (d, n) := Drawn(old(cpu.Now()), 0, if old(Spared()) then normalLines else MostLines());
        lines == n && cpu.Now() == d.(pins := d.pins.(sample := false)).ToldIf(cpu.env, mmc5)
    {
      hide Cpu.Ran, Cpu.UsedUp, Cpu.Told, Pins.Blanks, Pins.Shows, Processor.Rendering, Processor.Blanking,
        Processor.Valid, Cpu.Blanked, Next;
      if Spared() {
        totalLines := normalLines;
      } else {
        totalLines := MostLines();
      }
      DrawLines();
      lines := scanline;
      cpu.EndSample();
      if mmc5 {
        cpu.Hook();
      }
    }

    ghost function Overclocked(c: Cpu): Cpu
    {
      if overclock && blankLines > 0 && !(c.pins.sample && skip7bit)
      then c.(overclocking := true).Ran(cpu.env, LINE * blankLines - 12).(overclocking := false) else c
    }

    /** The interrupt comes twelve dots into the second line of the vertical blank. */
    ghost function Vertical(c: Cpu): Cpu
      requires perFrame >= 243
    {
      var d := c.Ran(cpu.env, LINE).Ran(cpu.env, 12);
      var e := if d.pins.control >= 0x80 then d.(irq := d.irq + {Nmi}) else d;
      Overclocked(e.Ran(cpu.env, LINE * (perFrame - 242) - 12))
    }

    ghost function Last(c: Cpu, kook: nat): Cpu
      requires kook <= 1
    {
      var d := c.Ran(cpu.env, 256);
      var e := if d.pins.Shows() then d.ToldIf(cpu.env, d.pins.Blanks()).ToldIf(cpu.env, hblank2) else d;
      e.Ran(cpu.env, 69).Ran(cpu.env, 16 - kook)
    }

    /** The lines overclocking adds to the vertical blank, unless a sample is played. */
    method Overclock() returns (extra: nat)
      requires Valid()
      modifies `spared, cpu
      ensures Valid() && cpu.dots == old(cpu.dots) + extra && spared == old(Spared())
      ensures extra == if old(Spared()) then 0 else ExtraDots(overclock, blankLines)
      ensures cpu.Now() == Overclocked(old(cpu.Now()))
    {
      hide Cpu.Ran, Cpu.UsedUp, Cpu.Told, Pins.Blanks, Pins.Shows, Processor.Rendering, Processor.Blanking,
        Processor.Valid;
      spared := Spared();
      extra := 0;
      if overclock && blankLines > 0 {
        if !cpu.pins.sample || !skip7bit {
          cpu.SetOverclocking(true);
          cpu.Run(blankLines * (256 + 85) - 12);
          cpu.SetOverclocking(false);
          extra := ExtraDots(overclock, blankLines);
        }
      }
    }

    /** The vertical blank, with the lines overclocking adds. */
    method VerticalBlank() returns (extra: nat)
      requires Valid()
      modifies `spared, cpu
      ensures Valid() && cpu.dots == old(cpu.dots) + LINE * (perFrame - 241) + extra
      ensures extra == if spared then 0 else ExtraDots(overclock, blankLines)
      ensures spared ==> skip7bit
      ensures cpu.Now() == Vertical(old(cpu.Now()))
    {
      hide Cpu.Ran, Cpu.UsedUp, Cpu.Told, Pins.Blanks, Pins.Shows, Processor.Rendering, Processor.Blanking,
        Processor.Valid, Overclocked;
      cpu.Run(256 + 85);
      cpu.Run(12);
      if cpu.pins.control / 0x80 == 1 {
        cpu.TriggerNmi();
      }
      cpu.Run((perFrame - 242) * (256 + 85) - 12);
      extra := Overclock();
    }

    /** The line before the first, one dot short every other frame. */
    method LastLine()
      requires Valid()
      modifies `kook, cpu
      ensures Valid() && kook == 1 - old(kook) && cpu.dots == old(cpu.dots) + LINE - old(kook)
      ensures cpu.Now() == Last(old(cpu.Now()), old(kook))
    {
      hide Cpu.Ran, Cpu.UsedUp, Cpu.Told, Pins.Blanks, Pins.Shows, Processor.Rendering, Processor.Blanking,
        Processor.Valid;
      cpu.Run(256);
      if cpu.Rendering() {
        if cpu.Blanking() {
          cpu.Hook();
        }
        if hblank2 {
          cpu.Hook();
        }
      }
      cpu.Run(85 - 16);
      cpu.Run(16 - kook);
      kook := 1 - kook;
    }

    /** One frame, with the vertical blank first. */
    method Frame(skip: bool) returns (lines: nat, extra: nat)
      requires Valid()
      modifies this, cpu
      ensures Valid()
      ensures old(dead) > 0 ==>
        && dead == old(dead) - 1 && kook == old(kook)
        && cpu.dots == old(cpu.dots) + LINE * perFrame
      ensures old(dead) == 0 ==>
        && dead == 0 && kook == 1 - old(kook)
        && cpu.dots == old(cpu.dots) + FrameDots(perFrame, lines, old(kook), extra)
      ensures extra == if old(dead) > 0 || spared then 0 else ExtraDots(overclock, blankLines)
      ensures spared && old(dead) == 0 ==> skip7bit
      ensures if skip then lines == 240 else normalLines <= lines <= MostLines()
      ensures old(dead) == 0 && !skip && !skip7bit ==> lines == MostLines()
      ensures old(dead) > 0 ==> cpu.Now() == old(cpu.Now()).Ran(cpu.env, LINE * perFrame)
      ensures old(dead) == 0 ==>
        var c := Last(Vertical(old(cpu.Now())), old(kook));
        if skip then cpu.Now() == Skipped(c)
        else
          var (d, n) := Drawn(c, 0, if c.pins.sample && skip7bit then normalLines else MostLines());
          lines == n && cpu.Now() == d.(pins := d.pins.(sample := false)).ToldIf(cpu.env, mmc5)
    {
      hide Cpu.Ran, Cpu.UsedUp, Cpu.Told, Pins.Blanks, Pins.Shows, Processor.Rendering, Processor.Blanking,
        Processor.Valid, Cpu.Blanked, Last, Vertical, Skipped, Drawn;
      lines, extra := if skip then 240 else normalLines, 0;
      if dead > 0 {
        cpu.Run(perFrame * (256 + 85));
        dead := dead - 1;
        return;
      }
      extra := VerticalBlank();
      LastLine();
      if skip {
        Skip();
      } else {
        lines := Draw();
      }
    }

    /** Frames skipped or drawn as the caller likes last the same. */
    method Frames(skips: seq<bool>)
      requires Valid() && normalLines == 240 && !overclock
      modifies this, cpu
      ensures Valid() && cpu.dots == old(cpu.dots) + RunDots(perFrame, old(dead), old(kook), |skips|)
    {
      hide Cpu.Ran, Cpu.UsedUp, Cpu.Told, Pins.Blanks, Pins.Shows, Processor.Rendering, Processor.Blanking,
        Processor.Valid, Cpu.Blanked, Last, Vertical, Skipped, Drawn;
      for i := 0 to |skips|
        invariant Valid()
        invariant cpu.dots + RunDots(perFrame, dead, kook, |skips| - i)
               == old(cpu.dots) + RunDots(perFrame, old(dead), old(kook), |skips|)
      {
        var lines, extra := Frame(skips[i]);
      }
    }
  }
}
