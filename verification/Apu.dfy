/** The sound registers of the NES: pulse sweeps, envelopes, the noise register and the sample
    player, and the low-quality mixer that looks their levels up in tables. */
module Apu {
  import opened Basics
  import opened Bits

  // Envelopes.

  datatype Envelope = Envelope(speed: int, mode: int, count: int, volume: int, reload: bool)

  predicate EnvelopeOk(e: Envelope)
  {
    0 <= e.speed <= 15 && 0 <= e.mode <= 3 && 0 <= e.count <= 16 && 0 <= e.volume <= 15
  }

  function EnvelopeStep(e: Envelope): (e': Envelope)
    ensures EnvelopeOk(e) ==> EnvelopeOk(e')
  {
    if e.reload then e.(volume := 15, count := e.speed + 1, reload := false)
    else
      var count := if e.count > 0 then e.count - 1 else e.count;
      if count != 0 then e.(count := count)
      else if e.volume != 0 || e.mode / 2 % 2 == 1 then e.(count := e.speed + 1, volume := (e.volume - 1) % 16)
      else e.(count := e.speed + 1)
  }

  function EnvelopeSteps(e: Envelope, n: nat): Envelope
  {
    if n == 0 then e else EnvelopeStep(EnvelopeSteps(e, n - 1))
  }

  /** `n` steps after it was reloaded, the volume has fallen by one every `speed` + 1 steps, and
      at the bottom stays or starts over. */
  predicate Fallen(e: Envelope, e': Envelope, n: nat)
    requires e.speed >= 0
  {
    FallenBy(e, e', n / (e.speed + 1), n % (e.speed + 1))
  }

  /** The volume has fallen `k` times, and `r` steps have passed since. */
  predicate FallenBy(e: Envelope, e': Envelope, k: int, r: int)
  {
    && !e'.reload && e'.speed == e.speed && e'.mode == e.mode
    && e'.count == e.speed + 1 - r
    && e'.volume == if e.mode / 2 % 2 == 1 then (15 - k) % 16 else if k < 15 then 15 - k else 0
  }

  lemma {:induction false} EnvelopeShape(e: Envelope, n: nat)
    requires EnvelopeOk(e) && e.reload
    ensures Fallen(e, EnvelopeSteps(e, n + 1), n)
  {
    if n == 0 {
      assert EnvelopeSteps(e, 1) == EnvelopeStep(EnvelopeSteps(e, 0));
    } else {
      hide EnvelopeStep, Fallen;
      EnvelopeShape(e, n - 1);
      FallsOn(e, EnvelopeSteps(e, n), n - 1);
    }
  }

  lemma FallsOn(e: Envelope, e': Envelope, n: nat)
    requires e.speed >= 0 && Fallen(e, e', n)
    ensures Fallen(e, EnvelopeStep(e'), n + 1)
  {
    hide EnvelopeStep, FallenBy;
    NextQuotient(n, e.speed + 1);
    FallsBy(e, e', n / (e.speed + 1), n % (e.speed + 1));
  }

  lemma NextQuotient(n: nat, m: nat)
    requires m > 0
    ensures n % m + 1 < m ==> (n + 1) / m == n / m && (n + 1) % m == n % m + 1
    ensures n % m + 1 == m ==> (n + 1) / m == n / m + 1 && (n + 1) % m == 0
  {
    var q, r := n / m, n % m;
    assert n == q * m + r;
    if r + 1 < m {
      DivModUnique(n + 1, m, q, r + 1);
    } else {
      DivModUnique(n + 1, m, q + 1, 0);
    }
  }

  lemma FallsBy(e: Envelope, e': Envelope, k: nat, r: nat)
    requires r <= e.speed && FallenBy(e, e', k, r)
    ensures if r < e.speed then FallenBy(e, EnvelopeStep(e'), k, r + 1) else FallenBy(e, EnvelopeStep(e'), k + 1, 0)
  {
  }

  // The pulse channels.

  datatype Pulse = Pulse(freq: int, sweeping: bool, sweepCount: int, sweepReload: bool, duty: int, acc: int)

  predicate PulseOk(p: Pulse)
  {
    0 <= p.freq <= 0x7FF && 0 <= p.duty <= 7 && 0 <= p.sweepCount <= 0x100
  }

  lemma {:induction false} HighRange(x: nat, n: nat)
    ensures High(x, n) <= x && (n > 0 ==> High(x, n) <= x / 2)
    decreases n
  {
    if n > 0 {
      HighRange(x / 2, n - 1);
    }
  }

  /** One change of the frequency by the sweep register `r`. Channel 0 falls by one more. */
  function SweepFreq(freq: int, r: Byte, channel: int): (f: int)
    requires 0 <= freq <= 0x7FF && 0 <= channel <= 1
    ensures 0 <= f <= 0x7FF
  {
    var shift := r % 8;
    HighRange(freq, shift);
    var mod := High(freq, shift);
    if shift == 0 || freq < 8 then freq
    else if r / 8 % 2 == 1 then freq - (mod + 1 - channel)
    else if mod + freq < 0x800 then freq + mod else freq
  }

  /** With a shift of at least one the frequency moves by that part of itself: down, and one more
      on channel 0, when bit 3 is set, else up unless it would need a twelfth bit. */
  predicate Swept(freq: int, f: int, r: Byte, channel: int)
  {
    var part := freq / Pow2(r % 8);
    && (r % 8 == 0 || freq < 8 ==> f == freq)
    && (r % 8 > 0 && freq >= 8 && r / 8 % 2 == 1 ==> f == freq - part - if channel == 0 then 1 else 0)
    && (r % 8 > 0 && freq >= 8 && r / 8 % 2 == 0 ==> f == if freq + part < 0x800 then freq + part else freq)
  }

  lemma SweepMoves(freq: int, r: Byte, channel: int)
    requires 0 <= freq <= 0x7FF && 0 <= channel <= 1
    ensures Swept(freq, SweepFreq(freq, r, channel), r, channel)
  {
    hide High, Pow2;
    HighLow(freq, r % 8);
  }

  function SweepStep(p: Pulse, r: Byte, channel: int): (p': Pulse)
    requires PulseOk(p) && 0 <= channel <= 1
    ensures PulseOk(p') && p'.duty == p.duty && p'.acc == p.acc && p'.sweeping == p.sweeping
  {
    var period := r / 0x10 % 8 + 1;
    var count := if p.sweepCount > 0 then p.sweepCount - 1 else p.sweepCount;
    var due := count <= 0;
    Pulse(if due && p.sweeping then SweepFreq(p.freq, r, channel) else p.freq, p.sweeping,
          if due || p.sweepReload then period else count, false, p.duty, p.acc)
  }

  /** A sweep that is on is due when its counter is at most one. */
  lemma DueSweep(p: Pulse, r: Byte, channel: int)
    requires PulseOk(p) && 0 <= channel <= 1
    ensures p.sweeping && p.sweepCount <= 1 ==> Swept(p.freq, SweepStep(p, r, channel).freq, r, channel)
  {
    hide Swept, SweepFreq;
    SweepMoves(p.freq, r, channel);
  }

  /** What the four registers of a pulse channel set in it. */
  function PulseWrite(p: Pulse, r: int, v: Byte): (p': Pulse)
    ensures PulseOk(p) ==> PulseOk(p')
  {
    if r == 1 then p.(sweeping := v / 0x80 == 1, sweepReload := true)
    else if r == 2 then p.(freq := p.freq / 0x100 * 0x100 + v)
    else if r == 3 then p.(freq := p.freq % 0x100 + 0x100 * (v % 8), duty := 7)
    else p
  }

  function EnvelopeWrite(e: Envelope, r: int, v: Byte): (e': Envelope)
    ensures EnvelopeOk(e) ==> EnvelopeOk(e')
  {
    if r == 0 then e.(mode := v / 0x10 % 4, speed := v % 0x10) else if r == 3 then e.(reload := true) else e
  }

  /** Register 0 sets nothing in a pulse, registers 1 and 2 nothing in an envelope. */
  lemma OtherRegisters(p: Pulse, e: Envelope, v: Byte)
    ensures PulseWrite(p, 0, v) == p && EnvelopeWrite(e, 1, v) == e && EnvelopeWrite(e, 2, v) == e
  {
  }

  /** The envelope a register belongs to: those of the pulses and the noise; 3 for none. */
  function UnitOf(a: int): nat
    requires 0 <= a < 0x10
  {
    if a < 8 then a / 4 else if a >= 0xC then 2 else 3
  }

  /** The two frequency registers, written in either order, make up eleven bits. */
  lemma FrequencyRegisters(p: Pulse, low: Byte, high: Byte)
    requires PulseOk(p)
    ensures PulseWrite(PulseWrite(p, 2, low), 3, high).freq == low + 0x100 * (high % 8)
    ensures PulseWrite(PulseWrite(p, 3, high), 2, low).freq == low + 0x100 * (high % 8)
  {
    assert (p.freq / 0x100 * 0x100 + low) % 0x100 == low;
  }

  // The noise register: fifteen bits, fed back from bit 14 and bit 13 or 8.

  function NoiseStep(reg: int, short: bool): int
  {
    (2 * reg + (reg / (if short then 0x100 else 0x2000) + reg / 0x4000) % 2) % 0x8000
  }

  function NoiseSteps(reg: int, short: bool, n: nat): int
  {
    if n == 0 then reg else NoiseStep(NoiseSteps(reg, short, n - 1), short)
  }

  lemma NoiseParts(reg: int, short: bool)
    requires 0 <= reg < 0x8000
    ensures var low := reg % 0x4000;
      NoiseStep(reg, short) == 2 * low + (low / (if short then 0x100 else 0x2000) + reg / 0x4000) % 2
  {
    var top, low := reg / 0x4000, reg % 0x4000;
    var bit := (low / (if short then 0x100 else 0x2000) + top) % 2;
    assert (reg / (if short then 0x100 else 0x2000) + top) % 2 == bit by {
      if short {
        ShortTap(reg);
        ParityOnly(0x20 * top, low / 0x100 + top);
      } else {
        LongTap(reg);
        ParityOnly(top, low / 0x2000 + top);
      }
    }
    Wraps(low, top, bit);
  }

  lemma ShortTap(reg: int)
    ensures reg / 0x100 == 0x40 * (reg / 0x4000) + reg % 0x4000 / 0x100
  {
  }

  lemma LongTap(reg: int)
    ensures reg / 0x2000 == 2 * (reg / 0x4000) + reg % 0x4000 / 0x2000
  {
  }

  lemma TapsDiffer(reg: int, short: bool)
    requires 0 <= reg < 0x8000
    ensures var tap := reg / (if short then 0x100 else 0x2000);
      (tap + reg / 0x4000) % 2 == if tap % 2 != reg / 0x4000 then 1 else 0
  {
  }

  lemma ParityOnly(x: int, y: int)
    ensures (2 * x + y) % 2 == y % 2
  {
  }

  lemma Wraps(low: int, top: int, bit: int)
    requires 0 <= low < 0x4000 && 0 <= bit <= 1
    ensures (2 * (0x4000 * top + low) + bit) % 0x8000 == 2 * low + bit
  {
  }

  /** The register never runs dry, and no two of its values step to the same one. */
  lemma NoiseAlive(reg: int, other: int, short: bool)
    requires 0 < reg < 0x8000 && 0 < other < 0x8000
    ensures 0 < NoiseStep(reg, short) < 0x8000
    ensures NoiseStep(reg, short) == NoiseStep(other, short) ==> reg == other
  {
    hide NoiseStep;
    NoiseParts(reg, short);
    NoiseParts(other, short);
    var d := if short then 0x100 else 0x2000;
    SameTop(reg % 0x4000, reg / 0x4000, other % 0x4000, other / 0x4000,
            reg % 0x4000 / d, other % 0x4000 / d);
  }

  lemma SameTop(l: int, t: int, l': int, t': int, b: int, b': int)
    requires 0 <= t <= 1 && 0 <= t' <= 1 && l >= 0 && l' >= 0 && (l == l' ==> b == b') && (l == 0 ==> b == 0)
    ensures 2 * l + (b + t) % 2 == 2 * l' + (b' + t') % 2 ==> l == l' && t == t'
    ensures l > 0 || t > 0 ==> 2 * l + (b + t) % 2 > 0
  {
    ParityOnly(l, (b + t) % 2);
    ParityOnly(l', (b' + t') % 2);
  }

  // The sample player.

  datatype Dmc = Dmc(format: Byte, level: int, addressLatch: Byte, sizeLatch: Byte, address: int, size: int,
                     acc: int, period: int, bits: int, shift: int, buffer: Byte, fetched: bool, playing: bool, irq: bool)

  predicate DmcOk(d: Dmc)
  {
    && 0 <= d.level <= 127 && 0 <= d.address < 0x8000 && 0 <= d.size <= 0xFF1
    && d.period >= 50 && 0 <= d.bits <= 7 && 0 <= d.shift < 0x100
  }

  function Prepared(d: Dmc): (d': Dmc)
    ensures DmcOk(d) ==> DmcOk(d')
  {
    d.(address := 0x4000 + 0x40 * d.addressLatch, size := 0x10 * d.sizeLatch + 1)
  }

  /** One byte of the sample is fetched, when one is left and there is room. */
  function Fetch(d: Dmc, value: Byte): (d': Dmc)
    ensures DmcOk(d) ==> DmcOk(d')
  {
    if d.size == 0 || d.fetched then d
    else
      var next := d.(buffer := value, fetched := true, address := (d.address + 1) % 0x8000, size := d.size - 1);
      if next.size != 0 then next else if d.format / 0x40 % 2 == 1 then Prepared(next) else next.(irq := true)
  }

  /** The level moves by two, unless that leaves its seven bits. */
  function Levelled(level: int, bit: int): (l: int)
    ensures 0 <= level <= 127 && 0 <= bit <= 1 ==> 0 <= l <= 127
  {
    var l := (level + 4 * bit - 2) % 0x100;
    if l / 0x80 % 2 == 1 then level else l
  }

  /** A one moves the level up by two and a zero down, as long as it stays within seven bits. */
  lemma LevelMoves(level: int, bit: int)
    requires 0 <= level <= 127 && 0 <= bit <= 1
    ensures bit == 1 ==> Levelled(level, bit) == if level + 2 <= 127 then level + 2 else level
    ensures bit == 0 ==> Levelled(level, bit) == if level - 2 >= 0 then level - 2 else level
  {
  }

  /** One bit of the sample is played. */
  function PlayBit(d: Dmc): (d': Dmc)
    ensures DmcOk(d) ==> DmcOk(d')
  {
    var level := if d.playing then Levelled(d.level, d.shift % 2) else d.level;
    var next := d.(level := level, acc := d.acc + d.period, bits := (d.bits + 1) % 8, shift := d.shift / 2);
    if next.bits != 0 then next
    else if d.fetched then next.(playing := true, shift := d.buffer, fetched := false)
    else next.(playing := false)
  }

  function Played(d: Dmc): (d': Dmc)
    requires d.period > 0
    ensures d'.acc > 0 && (DmcOk(d) ==> DmcOk(d'))
    decreases -d.acc
  {
    if d.acc > 0 then d else Played(PlayBit(d))
  }

  /** A sample fetched byte by byte, each byte taken up before the next. */
  function Fetches(d: Dmc, values: seq<Byte>): Dmc
  {
    if values == [] then d
    else Fetch(Fetches(d, values[..|values| - 1]), values[|values| - 1]).(fetched := false)
  }

  /** A sample started is fetched from its addresses in order, wrapping from the top of memory
      to the middle, and ends exactly after its length; then it starts over or asks for
      attention. */
  lemma {:induction false} FetchesInOrder(d: Dmc, values: seq<Byte>)
    requires !d.fetched && |values| <= 0x10 * d.sizeLatch + 1
    ensures var d', n := Fetches(Prepared(d), values), |values|;
      var size := 0x10 * d.sizeLatch + 1;
      && d'.addressLatch == d.addressLatch && d'.sizeLatch == d.sizeLatch && d'.format == d.format && !d'.fetched
      && (n < size ==> d'.address == (0x4000 + 0x40 * d.addressLatch + n) % 0x8000 && d'.size == size - n && d'.irq == d.irq)
      && (n == size ==>
            if d.format / 0x40 % 2 == 1 then d' == Prepared(d') && d'.irq == d.irq else d'.size == 0 && d'.irq)
    decreases |values|
  {
    hide Fetch, Prepared;
    PreparedParts(d);
    if values != [] {
      var before := values[..|values| - 1];
      FetchesInOrder(d, before);
      var at := Fetches(Prepared(d), before);
      FetchParts(at, values[|values| - 1]);
      PreparedParts(Emptied(at, values[|values| - 1]));
      PreparedParts(Prepared(Emptied(at, values[|values| - 1])));
      assert Fetches(Prepared(d), values) == Fetch(at, values[|values| - 1]).(fetched := false);
      NextAddress(0x4000 + 0x40 * d.addressLatch + |before|);
    }
  }

  lemma PreparedParts(d: Dmc)
    ensures var d' := Prepared(d);
      && d' == d.(address := d'.address, size := d'.size)
      && d'.address == 0x4000 + 0x40 * d.addressLatch < 0x8000 && d'.size == 0x10 * d.sizeLatch + 1
  {
  }

  /** A byte fetched and taken up. */
  function Emptied(d: Dmc, value: Byte): Dmc
  {
    d.(address := (d.address + 1) % 0x8000, size := d.size - 1, buffer := value, fetched := false)
  }

  lemma FetchParts(d: Dmc, value: Byte)
    requires !d.fetched && d.size > 0
    ensures var d', end := Fetch(d, value).(fetched := false), Emptied(d, value);
      d' == if d.size > 1 then end else if d.format / 0x40 % 2 == 1 then Prepared(end) else end.(irq := true)
  {
  }

  lemma NextAddress(a: int)
    ensures (a % 0x8000 + 1) % 0x8000 == (a + 1) % 0x8000
  {
  }

  // The registers in place.

  function LengthTable(): (t: seq<int>)
    ensures |t| == 0x20
  {
    [10, 254, 20, 2, 40, 4, 80, 6, 160, 8, 60, 10, 14, 12, 26, 14,
     12, 16, 24, 18, 48, 20, 96, 22, 192, 24, 72, 26, 16, 28, 32, 30]
  }

  function NoisePeriods(pal: bool): (t: seq<int>)
    ensures |t| == 0x10 && forall i :: 0 <= i < 0x10 ==> t[i] >= 4
  {
    if pal then [4, 7, 14, 30, 60, 88, 118, 148, 188, 236, 354, 472, 708, 944, 1890, 3778]
    else [4, 8, 16, 32, 64, 96, 128, 160, 202, 254, 380, 508, 762, 1016, 2034, 4068]
  }

  function DmcPeriods(pal: bool): (t: seq<int>)
    ensures |t| == 0x10 && forall i :: 0 <= i < 0x10 ==> t[i] >= 50
  {
    if pal then [398, 354, 316, 298, 276, 236, 210, 198, 176, 148, 132, 118, 98, 78, 66, 50]
    else [428, 380, 340, 320, 286, 254, 226, 214, 190, 160, 142, 128, 106, 84, 72, 54]
  }

  /** On PAL, where a cycle lasts longer, no period has more of them; noise periods grow along the table. */
  lemma NoiseOrdered(pal: bool, i: nat)
    requires i < 0x10
    ensures NoisePeriods(true)[i] <= NoisePeriods(false)[i] && (i > 0 ==> NoisePeriods(pal)[i - 1] < NoisePeriods(pal)[i])
  {
  }

  /** Likewise, and sample periods fall. */
  lemma DmcOrdered(pal: bool, i: nat)
    requires i < 0x10
    ensures DmcPeriods(true)[i] < DmcPeriods(false)[i] && (i > 0 ==> DmcPeriods(pal)[i - 1] > DmcPeriods(pal)[i])
  {
  }

  /** What the four registers of the sample player set in it. The address and the length wait
      for the next start. */
  function SampleWrite(pal: bool, d: Dmc, r: nat, v: Byte): (d': Dmc)
    requires r < 4
    ensures DmcOk(d) ==> DmcOk(d')
    ensures d'.address == d.address && d'.size == d.size && d'.acc == d.acc && d'.playing == d.playing
  {
    if r == 0 then d.(period := DmcPeriods(pal)[v % 0x10], format := v, irq := d.irq && v / 0x80 == 1)
    else if r == 1 then d.(level := v % 0x80)
    else if r == 2 then d.(addressLatch := v)
    else d.(sizeLatch := v)
  }

  function BitOf(v: Byte, x: nat): bool
    requires x < 8
  {
    v / (if x == 0 then 1 else if x == 1 then 2 else if x == 2 then 4 else if x == 3 then 8
         else if x == 4 then 0x10 else if x == 5 then 0x20 else if x == 6 then 0x40 else 0x80) % 2 == 1
  }

  /** Bits are numbered from the lowest. */
  lemma BitIs(v: Byte, x: nat)
    requires x < 8
    ensures BitOf(v, x) <==> v / Pow2(x) % 2 == 1
  {
    LowPowers();
  }

  lemma LowPowers()
    ensures Pow2(0) == 1 && Pow2(1) == 2 && Pow2(2) == 4 && Pow2(3) == 8
    ensures Pow2(4) == 0x10 && Pow2(5) == 0x20 && Pow2(6) == 0x40 && Pow2(7) == 0x80
  {
  }

  /** What the frame counter drives. */
  datatype Units = Units(envelopes: seq<Envelope>, lengths: seq<int>, pulses: seq<Pulse>, triCount: int, triLoad: bool)

  /** A length counter stands still. */
  predicate Halted(psg: seq<Byte>, x: nat)
    requires |psg| == 0x10 && x < 4
  {
    if x == 2 then BitOf(psg[8], 7) else BitOf(psg[4 * x], 5)
  }

  function LengthStep(psg: seq<Byte>, length: int, x: nat): int
    requires |psg| == 0x10 && x < 4
  {
    if !Halted(psg, x) && length > 0 then length - 1 else length
  }

  /** From `u` to `u'` a quarter of a frame has passed: every envelope and the triangle's
      counter step, and on an even quarter the lengths and the sweeps do. */
  ghost predicate Quarter(psg: seq<Byte>, u: Units, u': Units, v: int)
    requires |psg| == 0x10 && forall x :: 0 <= x < |u.pulses| ==> PulseOk(u.pulses[x])
  {
    && |u.envelopes| == |u'.envelopes| == 3 && |u.lengths| == |u'.lengths| == 4 && |u.pulses| == |u'.pulses| == 2
    && (forall i :: 0 <= i < 3 ==> u'.envelopes[i] == EnvelopeStep(u.envelopes[i]))
    && (if v % 2 == 0 then
          && (forall x :: 0 <= x < 4 ==> u'.lengths[x] == LengthStep(psg, u.lengths[x], x))
          && (forall x :: 0 <= x < 2 ==> u'.pulses[x] == SweepStep(u.pulses[x], psg[4 * x + 1], x))
        else u'.lengths == u.lengths && u'.pulses == u.pulses)
    && u'.triCount == (if u.triLoad then psg[8] % 0x80 else if u.triCount > 0 then u.triCount - 1 else 0)
    && u'.triLoad == (u.triLoad && BitOf(psg[8], 7))
  }

  /** A table of levels: 32 for the pulses, 203 for triangle, noise and sample together. */
  predicate Tables(lookup1: seq<int>, lookup2: seq<int>)
  {
    |lookup1| == 32 && |lookup2| == 203
  }

  /** A volume setting is on a scale to 256, where 256 leaves the level alone. */
  function Scaled(amp: int, volume: int): (r: int)
    ensures 0 <= amp <= 15 && 0 <= volume <= 256 ==> 0 <= r <= amp
  {
    if volume != 256 then
      ScaledBound(amp, volume);
      amp * volume / 256
    else amp
  }

  lemma ScaledBound(amp: int, volume: int)
    ensures 0 <= amp <= 15 && 0 <= volume <= 256 ==> 0 <= amp * volume / 256 <= amp
  {
    if 0 <= amp <= 15 && 0 <= volume <= 256 {
      assert amp * volume <= amp * 256;
      assert 0 <= amp * volume;
    }
  }

  class Sound {
    const pal: bool
    /** What the frame clock is set ahead by. */
    const quarterTime: int
    /** Volume settings: the two pulses and the triangle's, which the noise takes too. */
    const volume1: int
    const volume2: int
    const volume3: int
    var psg: seq<Byte>
    var envelopes: seq<Envelope>
    var pulses: seq<Pulse>
    var lengths: seq<int>
    var enabled: Byte
    var triCount: int
    var triLoad: bool
    var triStep: int
    var triOut: int
    var triAcc: int
    var noise: int
    var noiseAcc: int
    var dmc: Dmc
    var frameMode: Byte
    var frame: int
    var frameIrq: bool
    var frameClock: int

    ghost predicate Shaped()
      reads this
    {
      |psg| == 0x10 && |envelopes| == 3 && |pulses| == 2 && |lengths| == 4
    }

    /** What the registers can never leave. */
    ghost predicate Valid()
      reads this
    {
      && Shaped()
      && (forall i :: 0 <= i < 3 ==> EnvelopeOk(envelopes[i]))
      && (forall i :: 0 <= i < 2 ==> PulseOk(pulses[i]))
      && (forall i :: 0 <= i < 4 ==> 0 <= lengths[i] <= 254)
      && 0 <= triCount <= 127 && 0 <= triStep <= 31 && 0 <= triOut <= 45 && 0 < noise < 0x8000
      && DmcOk(dmc) && 0 <= frame <= 3
      && 0 <= volume1 <= 256 && 0 <= volume2 <= 256 && 0 <= volume3 <= 256
    }

    /** FCEUSND_Power, after which the volumes are those set; a quarter of a frame is ahead. */
    constructor (pal: bool, rate: nat, volume1: int, volume2: int, volume3: int)
      requires 0 <= volume1 <= 256 && 0 <= volume2 <= 256 && 0 <= volume3 <= 256
      ensures this.volume1 == volume1 && this.volume2 == volume2 && this.volume3 == volume3
      ensures Valid() && this.pal == pal && quarterTime == if pal then 399024 else 357960
      ensures frameMode == 0 && frame == 0 && !frameIrq && frameClock == quarterTime
      ensures psg == seq(0x10, _ => 0) && lengths == seq(4, _ => 0) && enabled == 0
      ensures triCount == 0 && !triLoad && triStep == 0 && noise == 1
      ensures pulses == seq(2, _ => Pulse(0, false, 0, false, 0, if rate > 0 then 0x1000_0000 / rate else 1))
      ensures envelopes == seq(3, _ => Envelope(0, 0, 0, 0, false))
      ensures dmc == Dmc(0, 0, 0, 0, 0, 0, 1, DmcPeriods(pal)[0], 0, 0, 0, false, false, false)
    {
      this.pal, this.volume1, this.volume2, this.volume3 := pal, volume1, volume2, volume3;
      psg := seq(0x10, _ => 0);
      envelopes := seq(3, _ => Envelope(0, 0, 0, 0, false));
      pulses := seq(2, _ => Pulse(0, false, 0, false, 0, if rate > 0 then 2048 * 0x2_0000 / rate else 1));
      lengths := [0, 0, 0, 0];
      enabled, triCount, triLoad, triStep, triOut, triAcc, noise, noiseAcc := 0, 0, false, 0, 0, 0, 1, 0;
      dmc := Dmc(0, 0, 0, 0, 0, 0, 1, DmcPeriods(pal)[0], 0, 0, 0, false, false, false);
      quarterTime := (if pal then 16626 else 14915) * 24;
      frameMode, frame, frameIrq, frameClock := 0, 0, false, (if pal then 16626 else 14915) * 24;
    }

    method LoadLength(x: nat, v: Byte)
      requires Valid() && x < 4
      modifies `lengths
      ensures Valid()
      ensures lengths == if BitOf(enabled, x) then old(lengths)[x := LengthTable()[v / 8]] else old(lengths)
    {
      if BitOf(enabled, x) {
        LengthRange(v / 8);
        lengths := lengths[x := LengthTable()[v / 8]];
      }
    }

    method SetEnvelope(x: nat, v: Byte)
      requires Valid() && x < 3
      modifies `envelopes
      ensures Valid() && envelopes == old(envelopes)[x := EnvelopeWrite(old(envelopes[x]), 0, v)]
    {
      hide DmcOk, PulseOk;
      var e := envelopes[x];
      e := e.(mode := v / 0x10 % 4);
      e := e.(speed := v % 0x10);
      envelopes := envelopes[x := e];
    }

    method Restart(x: nat)
      requires Valid() && x < 3
      modifies `envelopes
      ensures Valid() && forall v: Byte :: envelopes == old(envelopes)[x := EnvelopeWrite(old(envelopes[x]), 3, v)]
    {
      hide DmcOk, PulseOk;
      envelopes := envelopes[x := envelopes[x].(reload := true)];
    }

    method SetSweep(x: nat, v: Byte)
      requires Valid() && x < 2
      modifies `pulses
      ensures Valid() && pulses == old(pulses)[x := PulseWrite(old(pulses[x]), 1, v)]
    {
      hide DmcOk, EnvelopeOk;
      var p := pulses[x];
      p := p.(sweeping := v >= 0x80);
      p := p.(sweepReload := true);
      pulses := pulses[x := p];
    }

    method SetLow(x: nat, v: Byte)
      requires Valid() && x < 2
      modifies `pulses
      ensures Valid() && pulses == old(pulses)[x := PulseWrite(old(pulses[x]), 2, v)]
    {
      hide DmcOk, EnvelopeOk;
      pulses := pulses[x := pulses[x].(freq := pulses[x].freq - pulses[x].freq % 0x100 + v)];
    }

    /** SQReload. */
    method Reload(x: nat, v: Byte)
      requires Valid() && x < 2
      modifies `lengths, `pulses, `envelopes
      ensures Valid()
      ensures lengths == if BitOf(enabled, x) then old(lengths)[x := LengthTable()[v / 8]] else old(lengths)
      ensures pulses == old(pulses)[x := PulseWrite(old(pulses[x]), 3, v)]
      ensures envelopes == old(envelopes)[x := EnvelopeWrite(old(envelopes[x]), 3, v)]
    {
      hide BitOf, LengthTable;
      LoadLength(x, v);
      pulses := pulses[x := pulses[x].(freq := pulses[x].freq % 0x100 + v % 8 * 0x100, duty := 7)];
      envelopes := envelopes[x := envelopes[x].(reload := true)];
    }

    /** Write_PSG, for $4000 to $400F. */
    method WriteRegister(a: nat, v: Byte)
      requires Valid() && a < 0x10
      modifies `psg, `lengths, `pulses, `envelopes, `triLoad
      ensures Valid() && psg == old(psg)[a := v]
      ensures pulses == if a < 8 then old(pulses)[a / 4 := PulseWrite(old(pulses[a / 4]), a % 4, v)] else old(pulses)
      ensures envelopes == if UnitOf(a) < 3 then old(envelopes)[UnitOf(a) := EnvelopeWrite(old(envelopes[UnitOf(a)]), a % 4, v)]
                           else old(envelopes)
      ensures lengths == if a % 4 == 3 && BitOf(enabled, a / 4) then old(lengths)[a / 4 := LengthTable()[v / 8]]
                         else old(lengths)
      ensures triLoad == (old(triLoad) || a == 0xB)
    {
      hide BitOf, LengthTable, DmcOk, PulseOk, EnvelopeOk, PulseWrite, EnvelopeWrite;
      OtherRegisters(pulses[if a < 8 then a / 4 else 0], envelopes[if UnitOf(a) < 3 then UnitOf(a) else 0], v);
      if a == 0 || a == 4 {
        SetEnvelope(a / 4, v);
      } else if a == 1 || a == 5 {
        SetSweep(a / 4, v);
      } else if a == 2 || a == 6 {
        SetLow(a / 4, v);
      } else if a == 3 || a == 7 {
        Reload(a / 4, v);
      } else if a == 0xB {
        LoadLength(2, v);
        triLoad := true;
      } else if a == 0xC {
        SetEnvelope(2, v);
      } else if a == 0xF {
        LoadLength(3, v);
        Restart(2);
      }
      psg := psg[a := v];
    }

    /** Write_DMCRegs, for $4010 to $4013. */
    method WriteSample(a: nat, v: Byte)
      requires Valid() && a < 4
      modifies `dmc
      ensures Valid() && dmc == SampleWrite(pal, old(dmc), a, v)
    {
      hide DmcPeriods;
      if a == 0 {
        PeriodRange(pal, v % 0x10);
        dmc := dmc.(period := DmcPeriods(pal)[v % 0x10]);
        if dmc.irq && v < 0x80 {
          dmc := dmc.(irq := false);
        }
        dmc := dmc.(format := v);
      } else if a == 1 {
        dmc := dmc.(level := v % 0x80);
      } else if a == 2 {
        dmc := dmc.(addressLatch := v);
      } else {
        dmc := dmc.(sizeLatch := v);
      }
    }

    /** PrepDPCM. */
    method Prepare()
      requires Valid()
      modifies `dmc
      ensures Valid() && dmc == Prepared(old(dmc))
    {
      dmc := dmc.(address := 0x4000 + dmc.addressLatch * 0x40);
      dmc := dmc.(size := dmc.sizeLatch * 0x10 + 1);
    }

    /** StatusWrite. A sample is started unless one is running. */
    method WriteStatus(v: Byte)
      requires Valid()
      modifies this
      ensures Valid() && enabled == v % 0x20
      ensures forall x :: 0 <= x < 4 ==> lengths[x] == if BitOf(v, x) then old(lengths[x]) else 0
      ensures dmc == (if !BitOf(v, 4) then old(dmc).(size := 0)
                      else if old(dmc).size == 0 then Prepared(old(dmc)) else old(dmc)).(irq := false)
    {
      for x := 0 to 4
        invariant Valid() && dmc == old(dmc)
        invariant forall y :: 0 <= y < 4 ==> lengths[y] == if y >= x || BitOf(v, y) then old(lengths[y]) else 0
      {
        if !BitOf(v, x) {
          lengths := lengths[x := 0];
        }
      }
      if BitOf(v, 4) {
        if dmc.size == 0 {
          Prepare();
        }
      } else {
        dmc := dmc.(size := 0);
      }
      dmc := dmc.(irq := false);
      enabled := v % 0x20;
    }

    function LengthAfter(x: nat): int
      requires Shaped() && x < 4
      reads this
    {
      LengthStep(psg, lengths[x], x)
    }

    /** A length counter unless it stands still. */
    method CountLength(x: nat)
      requires Valid() && x < 4
      modifies `lengths
      ensures Valid() && lengths == old(lengths)[x := old(LengthAfter(x))]
    {
      hide BitOf;
      if (x == 2 && BitOf(psg[8], 7)) || (x != 2 && BitOf(psg[4 * x], 5)) {
        return;
      }
      if lengths[x] > 0 {
        lengths := lengths[x := lengths[x] - 1];
      }
    }

    /** The sweep of a channel. When it is due and on, the frequency moves by its part. */
    method Sweep(x: nat)
      requires Valid() && x < 2
      modifies `pulses
      ensures Valid() && pulses == old(pulses)[x := SweepStep(old(pulses[x]), psg[4 * x + 1], x)]
    {
      hide High, DmcOk, EnvelopeOk;
      var r, p := psg[4 * x + 1], pulses[x];
      if p.sweepCount > 0 {
        p := p.(sweepCount := p.sweepCount - 1);
      }
      if p.sweepCount <= 0 {
        var shift := r % 8;
        if p.sweeping && shift != 0 && p.freq >= 8 {
          var mod := High(p.freq, shift);
          HighRange(p.freq, shift);
          if r / 8 % 2 == 1 {
            p := p.(freq := p.freq - (mod + if x == 0 then 1 else 0));
          } else if mod + p.freq < 0x800 {
            p := p.(freq := p.freq + mod);
          }
        }
        p := p.(sweepCount := r / 0x10 % 8 + 1);
      }
      if p.sweepReload {
        p := p.(sweepCount := r / 0x10 % 8 + 1, sweepReload := false);
      }
      pulses := pulses[x := p];
    }

    /** The lengths and the sweeps, every other quarter of a frame. */
    method HalfFrame()
      requires Valid()
      modifies `lengths, `pulses
      ensures Valid()
      ensures forall x :: 0 <= x < 4 ==> lengths[x] == old(LengthAfter(x))
      ensures forall p :: 0 <= p < 2 ==> pulses[p] == SweepStep(old(pulses[p]), psg[4 * p + 1], p)
    {
      hide SweepStep, LengthStep;
      CountLength(2);
      CountLength(3);
      for p := 0 to 2
        invariant Valid()
        invariant forall x :: 0 <= x < 4 ==> lengths[x] == if x < p || x >= 2 then old(LengthAfter(x)) else old(lengths[x])
        invariant forall q :: 0 <= q < 2 ==>
          pulses[q] == if q < p then SweepStep(old(pulses[q]), psg[4 * q + 1], q) else old(pulses[q])
      {
        CountLength(p);
        Sweep(p);
      }
    }

    /** One envelope. */
    method Decay(x: nat)
      requires Valid() && x < 3
      modifies `envelopes
      ensures Valid() && envelopes == old(envelopes)[x := EnvelopeStep(old(envelopes[x]))]
    {
      hide DmcOk, PulseOk;
      var e := envelopes[x];
      if e.reload {
        e := e.(volume := 15);
        e := e.(count := e.speed + 1);
        e := e.(reload := false);
      } else {
        if e.count > 0 {
          e := e.(count := e.count - 1);
        }
        if e.count == 0 {
          e := e.(count := e.speed + 1);
          if e.volume != 0 || e.mode / 2 == 1 {
            e := e.(volume := if e.volume == 0 then 15 else e.volume - 1);
          }
        }
      }
      envelopes := envelopes[x := e];
    }

    function State(): Units
      reads this
    {
      Units(envelopes, lengths, pulses, triCount, triLoad)
    }

    method DecayAll()
      requires Valid()
      modifies `envelopes
      ensures Valid() && forall i :: 0 <= i < 3 ==> envelopes[i] == EnvelopeStep(old(envelopes[i]))
    {
      hide EnvelopeStep, DmcOk, EnvelopeOk, PulseOk;
      for i := 0 to 3
        invariant Valid()
        invariant forall j :: 0 <= j < 3 ==> envelopes[j] == if j < i then EnvelopeStep(old(envelopes[j])) else old(envelopes[j])
      {
        Decay(i);
      }
    }

    /** The triangle's own counter. */
    method CountTriangle()
      requires Valid()
      modifies `triCount, `triLoad
      ensures Valid()
      ensures triCount == if old(triLoad) then psg[8] % 0x80 else if old(triCount) > 0 then old(triCount) - 1 else 0
      ensures triLoad == (old(triLoad) && BitOf(psg[8], 7))
    {
      hide BitOf, DmcOk, EnvelopeOk, PulseOk;
      if triLoad {
        triCount := psg[8] % 0x80;
      } else if triCount != 0 {
        triCount := triCount - 1;
      }
      if !BitOf(psg[8], 7) {
        triLoad := false;
      }
    }

    /** A quarter of a frame. A sweep that is on and due moves the frequency by its part. */
    method FrameStuff(v: int)
      requires Valid()
      modifies `envelopes, `lengths, `pulses, `triCount, `triLoad
      ensures Valid() && Quarter(psg, old(State()), State(), v)
      ensures forall x :: 0 <= x < 2 && v % 2 == 0 && old(pulses[x]).sweeping && old(pulses[x]).sweepCount <= 1 ==>
        Swept(old(pulses[x]).freq, pulses[x].freq, psg[4 * x + 1], x)
    {
      hide SweepStep, EnvelopeStep, LengthStep, BitOf, DmcOk, EnvelopeOk, Swept;
      if v % 2 == 0 {
        HalfFrame();
        DueSweep(old(pulses[0]), psg[1], 0);
        DueSweep(old(pulses[1]), psg[5], 1);
      }
      CountTriangle();
      DecayAll();
    }

    /** What the last quarter adds to the frame clock: a fifth one in the other mode. */
    function FifthQuarter(): int
      reads this
    {
      if frame == 3 && frameMode / 2 % 2 == 1 then quarterTime else 0
    }

    method FrameUpdate()
      requires Valid()
      modifies `envelopes, `lengths, `pulses, `triCount, `triLoad, `frame, `frameIrq, `frameClock
      ensures Valid() && Quarter(psg, old(State()), State(), old(frame)) && frame == (old(frame) + 1) % 4
      ensures frameIrq == (old(frameIrq) || (old(frame) == 0 && frameMode % 4 == 0))
      ensures frameClock == old(frameClock) + old(FifthQuarter())
    {
      hide Quarter, DmcOk, EnvelopeOk, PulseOk;
      if frame == 0 && frameMode % 4 == 0 {
        frameIrq := true;
      }
      if frame == 3 && frameMode / 2 % 2 == 1 {
        frameClock := frameClock + quarterTime;
      }
      FrameStuff(frame);
      frame := (frame + 1) % 4;
    }

    /** Write_IRQFM, which begins with a quarter of a frame if bit 7 is set. */
    method WriteFrameMode(v: Byte)
      requires Valid()
      modifies `envelopes, `lengths, `pulses, `triCount, `triLoad, `frame, `frameIrq, `frameClock, `frameMode
      ensures Valid() && frame == 1 && !frameIrq && frameMode == v / 0x40 && frameClock == quarterTime
      ensures if v / 0x80 == 1 then Quarter(psg, old(State()), State(), 0) else State() == old(State())
    {
      hide Quarter, DmcOk, EnvelopeOk, PulseOk;
      frame := 0;
      if v / 0x80 == 1 {
        FrameUpdate();
      }
      frame := 1;
      frameClock := quarterTime;
      frameIrq := false;
      frameMode := v / 0x40;
    }

    /** FCEU_SoundCPUHook: an instruction has taken some cycles. The frame clock runs down by
        48 a cycle, and a quarter of a frame is due when it is out; at most one is taken.
        `value` is what memory holds at the sample's address. */
    method Pass(cycles: nat, value: Byte)
      requires Valid()
      modifies `envelopes, `lengths, `pulses, `triCount, `triLoad, `frame, `frameIrq, `frameClock, `dmc
      ensures Valid()
      ensures var fetched := Fetch(old(dmc), value); dmc == Played(fetched.(acc := fetched.acc - cycles))
      ensures if old(frameClock) <= 48 * cycles then
          && Quarter(psg, old(State()), State(), old(frame)) && frame == (old(frame) + 1) % 4
          && frameIrq == (old(frameIrq) || (old(frame) == 0 && frameMode % 4 == 0))
          && frameClock == old(frameClock) - 48 * cycles + old(FifthQuarter()) + quarterTime
        else
          && State() == old(State()) && frame == old(frame) && frameIrq == old(frameIrq)
          && frameClock == old(frameClock) - 48 * cycles
    {
      hide Quarter, Fetch, PlayBit, Played, DmcOk, EnvelopeOk, PulseOk;
      frameClock := frameClock - 48 * cycles;
      if frameClock <= 0 {
        FrameUpdate();
        frameClock := frameClock + quarterTime;
      }
      PlaySample(cycles, value);
    }

    /** The sample's share of the hook. */
    method PlaySample(cycles: nat, value: Byte)
      requires Valid()
      modifies `dmc
      ensures Valid()
      ensures var fetched := Fetch(old(dmc), value); dmc == Played(fetched.(acc := fetched.acc - cycles))
    {
      hide Fetch, PlayBit;
      FetchByte(value);
      dmc := dmc.(acc := dmc.acc - cycles);
      ghost var start := dmc;
      while dmc.acc <= 0
        invariant Valid() && Played(dmc) == Played(start)
        decreases -dmc.acc
      {
        PlayBitAdvances(dmc);
        PlayOne();
      }
    }

    /** DMCDMA. */
    method FetchByte(value: Byte)
      requires Valid()
      modifies `dmc
      ensures Valid() && dmc == Fetch(old(dmc), value)
    {
      hide EnvelopeOk, PulseOk;
      if dmc.size != 0 && !dmc.fetched {
        dmc := dmc.(buffer := value);
        dmc := dmc.(fetched := true);
        dmc := dmc.(address := if dmc.address == 0x7FFF then 0 else dmc.address + 1);
        dmc := dmc.(size := dmc.size - 1);
        if dmc.size == 0 {
          if dmc.format / 0x40 % 2 == 1 {
            Prepare();
          } else {
            dmc := dmc.(irq := true);
          }
        }
      }
    }

    /** One bit of the sample, and the next byte behind the last one. */
    method PlayOne()
      requires Valid()
      modifies `dmc
      ensures Valid() && dmc == PlayBit(old(dmc))
    {
      hide EnvelopeOk, PulseOk, Levelled;
      var d := dmc;
      if d.playing {
        LevelMoves(d.level, d.shift % 2);
        var level := d.level + if d.shift % 2 == 1 then 2 else -2;
        if 0 <= level <= 0x7F {
          d := d.(level := level);
        }
      }
      d := d.(acc := d.acc + d.period);
      d := d.(bits := if d.bits == 7 then 0 else d.bits + 1);
      d := d.(shift := d.shift / 2);
      if d.bits == 0 {
        if !d.fetched {
          d := d.(playing := false);
        } else {
          d := d.(playing := true);
          d := d.(shift := d.buffer);
          d := d.(fetched := false);
        }
      }
      dmc := d;
    }

    /** A pulse channel heard: how fast its phase runs down, or 0 for silence. */
    function Increment(x: nat, rate: nat): nat
      requires Shaped() && x < 2
      reads this
    {
      if pulses[x].freq < 8 || pulses[x].freq > 0x7FF || !InTune(pulses[x].freq, psg[4 * x + 1]) || lengths[x] == 0 then 0
      else rate
    }

    function Amplitude(i: nat, volume: int): int
      requires Shaped() && i < 3
      reads this
    {
      Scaled(if envelopes[i].mode % 2 == 1 then envelopes[i].speed else envelopes[i].volume, volume)
    }

    /** The level of a pulse channel at each step of its duty cycle. The volumes are crossed over. */
    function DutyTable(x: nat, increment: nat): (levels: seq<int>)
      requires Valid() && x < 2
      reads this
      ensures Levels(levels)
    {
      var amp := if increment == 0 then 0 else Amplitude(x, if x == 1 then volume1 else volume2);
      var threshold := Threshold(psg[4 * x]);
      seq(8, y requires 0 <= y < 8 => if y < threshold then amp else 0)
    }

    /** CheckFreq. */
    static method CheckFreq(freq: nat, r: Byte) returns (ok: bool)
      requires freq <= 0x7FF
      ensures ok == InTune(freq, r)
    {
      ok := true;
      if r / 8 % 2 == 0 {
        HighRange(freq, r % 8);
        if High(freq, r % 8) + freq >= 0x800 {
          ok := false;
        }
      }
    }

    /** How a pulse channel sounds until the next register write. */
    method Duty(x: nat, rate: nat) returns (increment: nat, levels: seq<int>)
      requires Valid() && x < 2
      ensures increment == Increment(x, rate) && levels == DutyTable(x, increment) && Levels(levels)
    {
      hide InTune, DmcOk;
      increment := rate;
      if pulses[x].freq < 8 || pulses[x].freq > 0x7FF {
        increment := 0;
      }
      var ok := CheckFreq(pulses[x].freq, psg[4 * x + 1]);
      if !ok {
        increment := 0;
      }
      if lengths[x] == 0 {
        increment := 0;
      }
      var amp := envelopes[x].volume;
      if envelopes[x].mode % 2 == 1 {
        amp := envelopes[x].speed;
      }
      var volume := if x == 0 then volume2 else volume1;
      if volume != 256 {
        amp := amp * volume / 256;
      }
      if increment == 0 {
        amp := 0;
      }
      var threshold := [1, 2, 4, 6][psg[4 * x] / 0x40];
      levels := [];
      for y := 0 to 8
        invariant |levels| == y && forall z :: 0 <= z < y ==> levels[z] == if z < threshold then amp else 0
      {
        if y < threshold {
          levels := levels + [amp];
        } else {
          levels := levels + [0];
        }
      }
    }

    /** RDoSQLQ. Sample `k` of the run is what the table holds for the two duty cycles `k`
        samples on, and it is added to its place in the buffer, sixteen to a place. */
    method MixPulses(start: nat, end: nat, rate: nat, lookup1: seq<int>, wave: array<int>) returns (ghost outs: seq<int>)
      requires Valid() && |lookup1| == 32 && start <= end <= 16 * wave.Length
      modifies `pulses, wave
      ensures Valid() && |outs| == end - start && wave[..] == Summed(old(wave[..]), start, outs)
      ensures var p0, p1 := old(pulses[0]), old(pulses[1]);
        var i0, i1 := old(Increment(0, rate)), old(Increment(1, rate));
        var t0, t1 := old(DutyTable(0, i0)), old(DutyTable(1, i1));
        var moving := i0 != 0 || i1 != 0;
        && pulses == [PulseAt(p0, moving, i0, end - start), PulseAt(p1, moving, i1, end - start)]
        && forall k :: 0 <= k < end - start ==>
             outs[k] == PulseLevel(lookup1, t0, t1, PulseAt(p0, moving, i0, k), PulseAt(p1, moving, i1, k))
    {
      hide PulseAt, DutyTable, Increment, Summed, EnvelopeOk, DmcOk, PulseOk, PulseLevel;
      var inc0, t0 := Duty(0, rate);
      var inc1, t1 := Duty(1, rate);
      var moving := inc0 != 0 || inc1 != 0;
      ghost var p0, p1 := pulses[0], pulses[1];
      outs := [];
      NoSamples(wave[..], start);
      PulseStarts(p0, moving, inc0);
      PulseStarts(p1, moving, inc1);
      var total := PulseSum(lookup1, t0, t1);
      for v := start to end
        invariant Valid() && |outs| == v - start && wave[..] == Summed(old(wave[..]), start, outs)
        invariant pulses == [PulseAt(p0, moving, inc0, v - start), PulseAt(p1, moving, inc1, v - start)]
        invariant total == PulseLevel(lookup1, t0, t1, pulses[0], pulses[1])
        invariant forall k :: 0 <= k < v - start ==>
          outs[k] == PulseLevel(lookup1, t0, t1, PulseAt(p0, moving, inc0, k), PulseAt(p1, moving, inc1, k))
      {
        OneSample(old(wave[..]), start, outs, total);
        outs := outs + [total];
        wave[v / 16] := wave[v / 16] + total;
        PulseMoves(p0, moving, inc0, v - start);
        PulseMoves(p1, moving, inc1, v - start);
        if moving {
          MovePulse(0, inc0);
          MovePulse(1, inc1);
          total := PulseSum(lookup1, t0, t1);
        }
      }
    }

    /** What the table of 32 levels holds for the two duty cycles. */
    method PulseSum(lookup1: seq<int>, t0: seq<int>, t1: seq<int>) returns (total: int)
      requires Valid() && |lookup1| == 32 && Levels(t0) && Levels(t1)
      ensures total == PulseLevel(lookup1, t0, t1, pulses[0], pulses[1])
    {
      hide EnvelopeOk, DmcOk;
      total := lookup1[t0[pulses[0].duty] + t1[pulses[1].duty]];
    }

    /** The phase runs down and the duty cycle moves on as often as it runs out. */
    method MovePulse(x: nat, increment: nat)
      requires Valid() && x < 2
      modifies `pulses
      ensures Valid() && pulses == old(pulses)[x := Refilled(old(pulses[x]), increment)]
    {
      hide Refilled;
      var p := pulses[x].(acc := pulses[x].acc - increment);
      ghost var was := pulses[x];
      RefillLater(was, increment);
      while p.acc <= 0
        invariant Valid() && pulses == old(pulses) && PulseOk(p)
        invariant Refilled(was, increment) == Refilled(p, 0)
        decreases -p.acc
      {
        RefillOnce(p);
        p := p.(acc := p.acc + (p.freq + 1) * 2 * 0x2_0000);
        p := p.(duty := if p.duty == 7 then 0 else p.duty + 1);
      }
      RefillNone(p);
      pulses := pulses[x := p];
    }

    /** How the triangle, the noise and the sample sound until the next register write. */
    function Voicing(rate: nat): (v: Voice)
      requires Valid()
      reads this
      ensures VoiceOk(v)
    {
      var period := psg[0xA] as int + 0x100 * (psg[0xB] as int % 8) + 1;
      Voice(if lengths[2] == 0 || triCount == 0 || period <= 4 then 0 else rate, period * 0x2_0000,
            if lengths[3] == 0 then 0 else rate, NoisePeriods(pal)[psg[0xE] % 0x10] * 0x2_0000, psg[0xE] / 0x80 == 1,
            if lengths[3] == 0 then 0 else 2 * Amplitude(2, volume3), dmc.level)
    }

    /** The same, worked out once before the samples. */
    method Setting(rate: nat) returns (v: Voice)
      requires Valid()
      ensures v == Voicing(rate)
    {
      hide NoisePeriods, LengthTable, PulseOk;
      var tri, noise := rate, rate;
      var period := psg[0xA] as int + psg[0xB] as int % 8 * 0x100 + 1;
      if lengths[2] == 0 || triCount == 0 || period <= 4 {
        tri := 0;
      }
      var amp := envelopes[2].volume;
      if envelopes[2].mode % 2 == 1 {
        amp := envelopes[2].speed;
      }
      if volume3 != 256 {
        amp := amp * volume3 / 256;
      }
      amp := amp * 2;
      if lengths[3] == 0 {
        amp, noise := 0, 0;
      }
      v := Voice(tri, period * 0x2_0000, noise, NoisePeriods(pal)[psg[0xE] % 0x10] * 0x2_0000, psg[0xE] >= 0x80, amp, dmc.level);
    }

    function Rest(): Mixture
      reads this
    {
      Mixture(triAcc, triStep, triOut, noiseAcc, noise)
    }

    /** RDoTriangleNoisePCMLQ, whose four loops differ in which of the two steps they take.
        Sample `k` is what the table holds for the mixture `k` samples on. */
    method MixRest(start: nat, end: nat, rate: nat, lookup2: seq<int>, wave: array<int>) returns (ghost outs: seq<int>)
      requires Valid() && |lookup2| == 203 && start <= end <= 16 * wave.Length
      modifies `triAcc, `triStep, `triOut, `noiseAcc, `noise, wave
      ensures Valid() && |outs| == end - start && wave[..] == Summed(old(wave[..]), start, outs)
      ensures Rest() == MixtureAt(old(Voicing(rate)), old(Rest()), end - start)
      ensures forall k :: 0 <= k < end - start ==>
        outs[k] == lookup2[MixIndex(old(Voicing(rate)), MixtureAt(old(Voicing(rate)), old(Rest()), k))]
    {
      hide Voicing, MixtureAt, MixtureNext, Summed, MixIndex, DmcOk, EnvelopeOk, PulseOk;
      var voice := Setting(rate);
      ghost var was := Rest();
      outs := [];
      NoSamples(wave[..], start);
      MixtureStarts(voice, was);
      var total := LookUp(voice, lookup2);
      for v := start to end
        invariant Valid() && |outs| == v - start && wave[..] == Summed(old(wave[..]), start, outs)
        invariant Rest() == MixtureAt(voice, was, v - start) && total == lookup2[MixIndex(voice, Rest())]
        invariant forall k :: 0 <= k < v - start ==> outs[k] == lookup2[MixIndex(voice, MixtureAt(voice, was, k))]
      {
        OneSample(old(wave[..]), start, outs, total);
        outs := outs + [total];
        wave[v / 16] := wave[v / 16] + total;
        MixtureMoves(voice, was, v - start);
        MoveRest(voice);
        total := LookUp(voice, lookup2);
      }
    }

    /** The level of triangle, noise and sample together. */
    method LookUp(v: Voice, lookup2: seq<int>) returns (total: int)
      requires Valid() && VoiceOk(v) && |lookup2| == 203
      ensures 0 <= MixIndex(v, Rest()) < 203 && total == lookup2[MixIndex(v, Rest())]
    {
      hide DmcOk, EnvelopeOk, PulseOk;
      var noiseOut := if noise >= 0x4000 then 0 else v.amp;
      total := lookup2[triOut + noiseOut + v.level];
    }

    /** One sample on for the triangle and the noise. */
    method MoveRest(v: Voice)
      requires Valid() && VoiceOk(v)
      modifies `triAcc, `triStep, `triOut, `noiseAcc, `noise
      ensures Valid() && Rest() == MixtureNext(v, old(Rest()))
    {
      hide DmcOk, EnvelopeOk, PulseOk, NoiseSteps, Turns, TriangleLevel;
      ghost var m := Rest();
      if v.triRate != 0 {
        MoveTriangle(v.triRate, v.triStride);
      }
      if v.noiseRate != 0 {
        MoveNoise(v.noiseRate, v.noiseStride, v.short);
      }
      Unmoved(v, m);
    }

    method MoveTriangle(rate: nat, stride: int)
      requires Valid() && stride > 0
      modifies `triAcc, `triStep, `triOut
      ensures Valid()
      ensures var n := Turns(old(triAcc) - rate, stride);
        && triAcc == old(triAcc) - rate + n * stride && triStep == (old(triStep) + n) % 0x20
        && triOut == if n > 0 then TriangleLevel(triStep) else old(triOut)
    {
      hide DmcOk, EnvelopeOk, PulseOk, Turns, TriangleLevel;
      triAcc := triAcc - rate;
      if triAcc <= 0 {
        var n;
        triAcc, n := RunDown(triAcc, stride);
        triStep := (triStep + n) % 0x20;
        TriangleForm(triStep);
        triOut := 3 * if triStep / 0x10 == 0 then 15 - triStep % 0x10 else triStep % 0x10;
      } else {
        NoTurns(triAcc, stride);
      }
    }

    method MoveNoise(rate: nat, stride: int, short: bool)
      requires Valid() && stride > 0
      modifies `noiseAcc, `noise
      ensures Valid()
      ensures var n := Turns(old(noiseAcc) - rate, stride);
        noiseAcc == old(noiseAcc) - rate + n * stride && noise == NoiseSteps(old(noise), short, n)
    {
      hide DmcOk, EnvelopeOk, PulseOk, NoiseStep;
      noiseAcc := noiseAcc - rate;
      ghost var start, n := noiseAcc, 0;
      while noiseAcc <= 0
        invariant Valid() && n + Turns(noiseAcc, stride) == Turns(start, stride)
        invariant noiseAcc == start + n * stride && noise == NoiseSteps(old(noise), short, n)
        decreases -noiseAcc
      {
        OneRefill(n, stride);
        NoiseAlive(noise, 1, short);
        n := n + 1;
        noiseAcc := noiseAcc + stride;
        ShiftNoise(short);
      }
    }

    /** The noise register moves up, and the difference of two of its bits comes in. */
    method ShiftNoise(short: bool)
      requires Valid()
      modifies `noise
      ensures noise == NoiseStep(old(noise), short)
    {
      TapsDiffer(noise, short);
      var tap := noise / (if short then 0x100 else 0x2000) % 2;
      var top := noise / 0x4000;
      noise := noise * 2 + if tap != top then 1 else 0;
      noise := noise % 0x8000;
    }

    /** Refills a phase until it is positive again, and counts. */
    static method RunDown(acc: int, stride: int) returns (acc': int, n: nat)
      requires stride > 0
      ensures n == Turns(acc, stride) && acc' == acc + n * stride && (acc <= 0 ==> n > 0)
    {
      acc', n := acc, 0;
      while acc' <= 0
        invariant acc' == acc + n * stride && n + Turns(acc', stride) == Turns(acc, stride)
        decreases -acc'
      {
        OneRefill(n, stride);
        n := n + 1;
        acc' := acc' + stride;
      }
    }
  }

  // Phases.

  /** How often a phase must be refilled to be positive. */
  function Turns(acc: int, stride: int): (n: nat)
    requires stride > 0
    decreases -acc
  {
    if acc > 0 then 0 else 1 + Turns(acc + stride, stride)
  }

  lemma NoTurns(acc: int, stride: int)
    requires stride > 0 && acc > 0
    ensures Turns(acc, stride) == 0
  {
  }

  /** The refilled phase is positive and within one stride. */
  lemma {:induction false} TurnsEnough(acc: int, stride: int)
    requires stride > 0
    ensures 0 < acc + Turns(acc, stride) * stride && (acc <= 0 ==> acc + Turns(acc, stride) * stride <= stride)
    decreases -acc
  {
    if acc <= 0 {
      TurnsEnough(acc + stride, stride);
      OneRefill(Turns(acc + stride, stride), stride);
    }
  }

  /** Running down in steps and refilling after each takes as many refills as running down at once. */
  lemma {:induction false} TurnsAdd(acc: int, stride: int, increment: nat)
    requires stride > 0
    ensures var n := Turns(acc, stride);
      n + Turns(acc + n * stride - increment, stride) == Turns(acc - increment, stride)
    decreases -acc
  {
    if acc <= 0 {
      OneRefill(Turns(acc + stride, stride), stride);
      TurnsAdd(acc + stride, stride, increment);
    }
  }

  lemma OneRefill(n: int, stride: int)
    ensures (n + 1) * stride == n * stride + stride
  {
  }

  /** One step of the duty cycle, in phase. */
  function Turn(freq: int): int
  {
    (freq + 1) * 0x4_0000
  }

  lemma TurnPositive(freq: int)
    requires freq >= 0
    ensures Turn(freq) > 0
  {
  }

  /** A pulse after its phase has run down by `spent` and been refilled. */
  function Refilled(p: Pulse, spent: int): (q: Pulse)
    requires p.freq >= 0
    ensures q.freq == p.freq && (PulseOk(p) ==> PulseOk(q))
  {
    TurnPositive(p.freq);
    var n := Turns(p.acc - spent, Turn(p.freq));
    p.(acc := p.acc - spent + n * Turn(p.freq), duty := (p.duty + n) % 8)
  }

  /** A level of four bits at each step of the duty cycle. */
  predicate Levels(levels: seq<int>)
  {
    |levels| == 8 && forall y :: 0 <= y < 8 ==> 0 <= levels[y] <= 15
  }

  /** The sum of the levels that two pulses have reached in their duty cycles is looked up. */
  function PulseLevel(lookup1: seq<int>, t0: seq<int>, t1: seq<int>, p0: Pulse, p1: Pulse): int
    requires |lookup1| == 32 && Levels(t0) && Levels(t1) && PulseOk(p0) && PulseOk(p1)
  {
    lookup1[t0[p0.duty] + t1[p1.duty]]
  }

  /** A pulse `k` samples on. */
  function PulseAt(p: Pulse, moving: bool, increment: nat, k: nat): (q: Pulse)
    requires PulseOk(p)
    ensures q.freq == p.freq && PulseOk(q)
  {
    if !moving || k == 0 then p else Refilled(p, increment * k)
  }

  lemma PulseStarts(p: Pulse, moving: bool, increment: nat)
    requires PulseOk(p)
    ensures PulseAt(p, moving, increment, 0) == p
  {
  }

  /** Running down twice, refilled between, is running down once by the sum. */
  lemma RefilledParts(p: Pulse, spent: int)
    requires p.freq >= 0
    ensures Turn(p.freq) > 0
    ensures var n := Turns(p.acc - spent, Turn(p.freq));
      Refilled(p, spent) == p.(acc := p.acc - spent + n * Turn(p.freq), duty := (p.duty + n) % 8)
  {
    hide Turns;
  }

  lemma RefilledAdd(p: Pulse, spent: int, increment: nat)
    requires PulseOk(p)
    ensures Refilled(Refilled(p, spent), increment) == Refilled(p, spent + increment)
  {
    hide Turns, Turn, Refilled;
    TurnPositive(p.freq);
    var stride := Turn(p.freq);
    RefilledParts(p, spent);
    RefilledParts(Refilled(p, spent), increment);
    RefilledParts(p, spent + increment);
    TurnsAdd(p.acc - spent, stride, increment);
    var n := Turns(p.acc - spent, stride);
    var m := Turns(p.acc - spent + n * stride - increment, stride);
    Together(n, m, stride);
    RoundTwice(p.duty, n, m, 8);
  }

  /** A sample more is one more running down. */
  lemma PulseMoves(p: Pulse, moving: bool, increment: nat, k: nat)
    requires PulseOk(p)
    ensures moving ==> PulseAt(p, moving, increment, k + 1) == Refilled(PulseAt(p, moving, increment, k), increment)
    ensures !moving ==> PulseAt(p, moving, increment, k + 1) == PulseAt(p, moving, increment, k)
  {
    hide Refilled;
    OneRefill(k, increment);
    if moving && k > 0 {
      RefilledAdd(p, increment * k, increment);
    }
  }

  lemma Together(n: int, m: int, stride: int)
    ensures (n + m) * stride == n * stride + m * stride
  {
  }

  lemma RoundTwice(d: int, n: int, m: int, size: int)
    requires size > 0
    ensures ((d + n) % size + m) % size == (d + (n + m)) % size
  {
    var q, r := (d + n) / size, (d + n) % size;
    var q', r' := (r + m) / size, (r + m) % size;
    assert d + n == q * size + r && r + m == q' * size + r';
    Together(q, q', size);
    DivModUnique(d + n + m, size, q + q', r');
  }

  lemma RefillOnce(p: Pulse)
    requires PulseOk(p) && p.acc <= 0
    ensures Turn(p.freq) > 0
    ensures Refilled(p, 0) == Refilled(p.(acc := p.acc + Turn(p.freq), duty := (p.duty + 1) % 8), 0)
  {
    hide Turn;
    TurnPositive(p.freq);
    var n := Turns(p.acc + Turn(p.freq), Turn(p.freq));
    OneRefill(n, Turn(p.freq));
    RoundTwice(p.duty, 1, n, 8);
  }

  lemma RefillLater(p: Pulse, spent: int)
    requires PulseOk(p)
    ensures Refilled(p, spent) == Refilled(p.(acc := p.acc - spent), 0)
  {
  }

  lemma RefillNone(p: Pulse)
    requires PulseOk(p) && p.acc > 0
    ensures Refilled(p, 0) == p
  {
  }

  /** Samples added to a buffer, sixteen to a place. */
  function Summed(w: seq<int>, start: nat, outs: seq<int>): (r: seq<int>)
    requires start + |outs| <= 16 * |w|
    ensures |r| == |w|
    decreases |outs|
  {
    if outs == [] then w
    else
      var before, at := Summed(w, start, outs[..|outs| - 1]), (start + |outs| - 1) / 16;
      before[at := before[at] + outs[|outs| - 1]]
  }

  lemma NoSamples(w: seq<int>, start: nat)
    requires start <= 16 * |w|
    ensures Summed(w, start, []) == w
  {
  }

  lemma OneSample(w: seq<int>, start: nat, outs: seq<int>, x: int)
    requires start + |outs| < 16 * |w|
    ensures var before, at := Summed(w, start, outs), (start + |outs|) / 16;
      Summed(w, start, outs + [x]) == before[at := before[at] + x]
  {
    assert (outs + [x])[..|outs + [x]| - 1] == outs;
  }

  /** How fast two phases run down and how far they are refilled, the noise register's form,
      the noise's level and the sample's. A rate of 0 stands still. */
  datatype Voice = Voice(triRate: nat, triStride: int, noiseRate: nat, noiseStride: int, short: bool, amp: int, level: int)

  predicate VoiceOk(v: Voice)
  {
    v.triStride > 0 && v.noiseStride > 0 && 0 <= v.amp <= 30 && 0 <= v.level <= 127
  }

  datatype Mixture = Mixture(triAcc: int, triStep: int, triOut: int, noiseAcc: int, noise: int)

  predicate MixtureOk(m: Mixture)
  {
    0 <= m.triStep <= 31 && 0 <= m.triOut <= 45 && 0 < m.noise < 0x8000
  }

  /** The place in the table of 203 levels. */
  function MixIndex(v: Voice, m: Mixture): (i: int)
    ensures VoiceOk(v) && MixtureOk(m) ==> 0 <= i < 203
  {
    m.triOut + (if m.noise / 0x4000 % 2 == 1 then 0 else v.amp) + v.level
  }

  /** The triangle goes down from 45 and up again by threes. */
  function TriangleLevel(step: int): int
  {
    3 * if step < 16 then 15 - step else step - 16
  }

  lemma TriangleForm(step: int)
    requires 0 <= step < 0x20
    ensures TriangleLevel(step) == 3 * (if step / 0x10 == 0 then 15 - step % 0x10 else step % 0x10)
    ensures 0 <= TriangleLevel(step) <= 45
  {
  }

  function MixtureNext(v: Voice, m: Mixture): (r: Mixture)
    requires VoiceOk(v)
    ensures MixtureOk(m) ==> MixtureOk(r)
  {
    MixtureBy(v, m, v.triRate, v.noiseRate)
  }

  /** Refills of a phase that stands still at rate 0. */
  function TurnsAt(rate: nat, acc: int, stride: int): nat
    requires stride > 0
  {
    if rate == 0 then 0 else Turns(acc, stride)
  }

  /** Both phases run down by as much as given and are refilled. */
  function MixtureBy(v: Voice, m: Mixture, tri: nat, noise: nat): (r: Mixture)
    requires VoiceOk(v)
    ensures MixtureOk(m) ==> MixtureOk(r)
  {
    var n, k := TurnsAt(v.triRate, m.triAcc - tri, v.triStride), TurnsAt(v.noiseRate, m.noiseAcc - noise, v.noiseStride);
    var step := (m.triStep + n) % 0x20;
    NoiseStaysAlive(m.noise, v.short, k);
    Mixture(m.triAcc - tri + n * v.triStride, step, if n > 0 then TriangleLevel(step) else m.triOut,
            m.noiseAcc - noise + k * v.noiseStride, NoiseSteps(m.noise, v.short, k))
  }

  /** The mixture `k` samples on. */
  function MixtureAt(v: Voice, m: Mixture, k: nat): (r: Mixture)
    requires VoiceOk(v)
    ensures MixtureOk(m) ==> MixtureOk(r)
  {
    if k == 0 then m else MixtureBy(v, m, v.triRate * k, v.noiseRate * k)
  }

  lemma MixtureStarts(v: Voice, m: Mixture)
    requires VoiceOk(v)
    ensures MixtureAt(v, m, 0) == m
  {
  }

  /** A sample more is one more running down of both. */
  lemma MixtureMoves(v: Voice, m: Mixture, k: nat)
    requires VoiceOk(v) && MixtureOk(m)
    ensures MixtureAt(v, m, k + 1) == MixtureNext(v, MixtureAt(v, m, k))
  {
    hide Turns, NoiseSteps;
    if k > 0 {
      assert v.triRate * (k + 1) == v.triRate * k + v.triRate && v.noiseRate * (k + 1) == v.noiseRate * k + v.noiseRate;
      MixtureAdd(v, m, v.triRate * k, v.noiseRate * k);
    }
  }

  /** What stands still keeps its place. */
  lemma Unmoved(v: Voice, m: Mixture)
    requires VoiceOk(v) && MixtureOk(m)
    ensures v.triRate == 0 ==> TurnsAt(v.triRate, m.triAcc - 0, v.triStride) == 0 && (m.triStep + 0) % 0x20 == m.triStep
    ensures NoiseSteps(m.noise, v.short, 0) == m.noise
  {
  }

  lemma PhaseAdd(rate: nat, acc: int, stride: int)
    requires stride > 0
    ensures var n := TurnsAt(rate, acc, stride);
      var n' := TurnsAt(rate, acc + n * stride - rate, stride);
      n + n' == TurnsAt(rate, acc - rate, stride) && n * stride + n' * stride == (n + n') * stride
  {
    hide Turns;
    var n := TurnsAt(rate, acc, stride);
    TurnsAdd(acc, stride, rate);
    Together(n, TurnsAt(rate, acc + n * stride - rate, stride), stride);
  }

  lemma MixtureAdd(v: Voice, m: Mixture, tri: nat, noise: nat)
    requires VoiceOk(v) && MixtureOk(m)
    ensures MixtureBy(v, m, tri + v.triRate, noise + v.noiseRate)
         == MixtureBy(v, MixtureBy(v, m, tri, noise), v.triRate, v.noiseRate)
  {
    hide TurnsAt, NoiseSteps, TriangleLevel, MixtureOk;
    var n, k := TurnsAt(v.triRate, m.triAcc - tri, v.triStride), TurnsAt(v.noiseRate, m.noiseAcc - noise, v.noiseStride);
    var mid := MixtureBy(v, m, tri, noise);
    var n' := TurnsAt(v.triRate, mid.triAcc - v.triRate, v.triStride);
    var k' := TurnsAt(v.noiseRate, mid.noiseAcc - v.noiseRate, v.noiseStride);
    PhaseAdd(v.triRate, m.triAcc - tri, v.triStride);
    PhaseAdd(v.noiseRate, m.noiseAcc - noise, v.noiseStride);
    RoundTwice(m.triStep, n, n', 0x20);
    NoiseAdd(m.noise, v.short, k, k');
    StepKept(m);
  }

  lemma StepKept(m: Mixture)
    requires MixtureOk(m)
    ensures m.triStep % 0x20 == m.triStep
  {
  }

  lemma {:induction false} NoiseAdd(reg: int, short: bool, n: nat, m: nat)
    ensures NoiseSteps(NoiseSteps(reg, short, n), short, m) == NoiseSteps(reg, short, n + m)
  {
    hide NoiseStep;
    if m > 0 {
      NoiseAdd(reg, short, n, m - 1);
    }
  }

  lemma {:induction false} NoiseStaysAlive(reg: int, short: bool, n: nat)
    ensures 0 < reg < 0x8000 ==> 0 < NoiseSteps(reg, short, n) < 0x8000
  {
    hide NoiseStep;
    if n > 0 && 0 < reg < 0x8000 {
      NoiseStaysAlive(reg, short, n - 1);
      NoiseAlive(NoiseSteps(reg, short, n - 1), 1, short);
    }
  }

  /** CheckFreq: the sweep, if it rises, would not leave eleven bits. */
  predicate InTune(freq: int, r: Byte)
    requires freq >= 0
  {
    r / 8 % 2 == 1 || (High(freq, r % 8) + freq) / 0x800 % 2 == 0
  }

  function Threshold(r: Byte): int
  {
    match r / 0x40
    case 0 => 1
    case 1 => 2
    case 2 => 4
    case _ => 6
  }

  /** A rising sweep silences its channel when the next step would need a twelfth bit. */
  lemma InTuneMeans(freq: int, r: Byte)
    requires 0 <= freq <= 0x7FF
    ensures InTune(freq, r) <==> r / 8 % 2 == 1 || freq + freq / Pow2(r % 8) < 0x800
  {
    hide High, Pow2;
    HighLow(freq, r % 8);
    HighRange(freq, r % 8);
  }

  /** Of the 32 lengths the odd ones count up by twos, but for the second, and the even ones begin
      with a note and its doubles. */
  lemma LengthNotes(n: nat)
    requires n < 0x20
    ensures n % 2 == 1 ==> LengthTable()[n] == if n == 1 then 254 else n - 1
    ensures n in {2, 4, 6, 8, 18, 20, 22, 24} ==> LengthTable()[n] == 2 * LengthTable()[n - 2]
    ensures LengthTable()[0] == 10 && LengthTable()[16] == 12
  {
  }

  lemma PlayBitAdvances(d: Dmc)
    ensures PlayBit(d).acc == d.acc + d.period
  {
  }

  lemma PeriodRange(pal: bool, i: nat)
    requires i < 0x10
    ensures DmcPeriods(pal)[i] >= 50
  {
  }

  lemma LengthRange(i: nat)
    requires i < 0x20
    ensures 0 <= LengthTable()[i] <= 254
  {
  }
}
