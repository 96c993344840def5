/** The sound resampler, and the filters behind it, on a stream that arrives in chunks. */
module Resampler {

  const ONE: int := 0x1_0000

  /** Filter length, coefficients, and the step between outputs as a 16.16 number. */
  datatype Config = Config(n: nat, coeffs: seq<int>, ratio: nat)

  predicate Valid(c: Config)
  {
    c.n >= 1 && |c.coeffs| == c.n && c.ratio >= 1
  }

  /** Taps `1` to `k` behind position `at`, weighted; the first coefficient belongs to the
      last tap. */
  function Taps(c: Config, s: seq<int>, at: int, k: nat): int
    requires Valid(c) && k <= c.n && 0 <= at + 1 && at + k < |s|
  {
    if k == 0 then 0 else Taps(c, s, at, k - 1) + s[at + k] * c.coeffs[c.n - k] / 64
  }

  /** The phase `x` is far enough from both ends of the buffer for every tap. */
  predicate Inside(c: Config, s: seq<int>, x: int)
  {
    c.n * ONE <= x < (|s| - 1) * ONE
  }

  /** One output: two neighbouring sums, weighted by the fraction of the phase. */
  function Output(c: Config, s: seq<int>, x: int): int
    requires Valid(c) && Inside(c, s, x)
  {
    Blend(Taps(c, s, x / ONE - c.n, c.n), Taps(c, s, x / ONE - c.n + 1, c.n), x % ONE)
  }

  function Blend(acc: int, acc2: int, frac: int): int
  {
    (acc * (ONE - frac) + acc2 * frac) / 0x800_0000
  }

  /** All outputs of a buffer from phase `x` on. */
  function Outputs(c: Config, s: seq<int>, x: int): seq<int>
    requires Valid(c) && c.n * ONE <= x
    decreases |s| * ONE - x
  {
    if x < (|s| - 1) * ONE then [Output(c, s, x)] + Outputs(c, s, x + c.ratio) else []
  }

  /** The first phase that a buffer of this length has no output for. */
  function Stop(c: Config, length: nat, x: int): (y: int)
    requires Valid(c)
    ensures y >= (length - 1) * ONE && y >= x
    decreases length * ONE - x
  {
    if x < (length - 1) * ONE then Stop(c, length, x + c.ratio) else x
  }

  /** The phase at which the next buffer starts, its first `n + 1` samples being the last
      ones of this buffer. */
  function Next(c: Config, length: nat, x: int): (y: int)
    requires Valid(c)
    ensures y >= c.n * ONE
  {
    Stop(c, length, x) - (length - 1) * ONE + c.n * ONE
  }

  lemma OutputsStep(c: Config, s: seq<int>, x: int)
    requires Valid(c) && c.n * ONE <= x
    ensures x < (|s| - 1) * ONE ==>
      && Outputs(c, s, x) == [Output(c, s, x)] + Outputs(c, s, x + c.ratio)
      && Stop(c, |s|, x) == Stop(c, |s|, x + c.ratio)
    ensures x >= (|s| - 1) * ONE ==> Outputs(c, s, x) == [] && Stop(c, |s|, x) == x
  {
  }

  function Join(chunks: seq<seq<int>>): seq<int>
  {
    if chunks == [] then [] else chunks[0] + Join(chunks[1..])
  }

  /** Chunk by chunk: what one call after the other puts out, the caller keeping the last
      `n + 1` samples of each buffer. */
  function Chunked(c: Config, kept: seq<int>, x: int, chunks: seq<seq<int>>): seq<int>
    requires Valid(c) && c.n * ONE <= x
    requires chunks != [] ==> |kept| + |chunks[0]| > c.n
    decreases |chunks|
  {
    if chunks == [] then []
    else
      var s := kept + chunks[0];
      Outputs(c, s, x) + Chunked(c, s[|s| - c.n - 1..], Next(c, |s|, x), chunks[1..])
  }

  lemma {:induction false} TapsPrefix(c: Config, s: seq<int>, t: seq<int>, at: int, k: nat)
    requires Valid(c) && k <= c.n && 0 <= at + 1 && at + k < |s|
    ensures Taps(c, s + t, at, k) == Taps(c, s, at, k)
  {
    if k > 0 {
      TapsPrefix(c, s, t, at, k - 1);
    }
  }

  lemma {:induction false} TapsShift(c: Config, s: seq<int>, d: nat, at: int, k: nat)
    requires Valid(c) && k <= c.n && d <= |s| && 0 <= at + 1 && at + k < |s| - d
    ensures Taps(c, s, at + d, k) == Taps(c, s[d..], at, k)
  {
    if k > 0 {
      TapsShift(c, s, d, at, k - 1);
    }
  }

  lemma OutputPrefix(c: Config, s: seq<int>, t: seq<int>, x: int)
    requires Valid(c) && Inside(c, s, x)
    ensures Inside(c, s + t, x) && Output(c, s + t, x) == Output(c, s, x)
  {
    TapsPrefix(c, s, t, x / ONE - c.n, c.n);
    TapsPrefix(c, s, t, x / ONE - c.n + 1, c.n);
  }

  lemma OutputShift(c: Config, s: seq<int>, d: nat, x: int)
    requires Valid(c) && d <= |s| && Inside(c, s[d..], x)
    ensures Inside(c, s, x + d * ONE) && Output(c, s, x + d * ONE) == Output(c, s[d..], x)
  {
    assert (x + d * ONE) / ONE == x / ONE + d && (x + d * ONE) % ONE == x % ONE;
    TapsShift(c, s, d, x / ONE - c.n, c.n);
    TapsShift(c, s, d, x / ONE - c.n + 1, c.n);
  }

  /** A longer buffer: first the outputs of the shorter one, then those from where it stopped. */
  lemma {:induction false} OutputsSplit(c: Config, s: seq<int>, t: seq<int>, x: int)
    requires Valid(c) && c.n * ONE <= x
    ensures Outputs(c, s + t, x) == Outputs(c, s, x) + Outputs(c, s + t, Stop(c, |s|, x))
    decreases |s| * ONE - x
  {
    if x < (|s| - 1) * ONE {
      OutputPrefix(c, s, t, x);
      OutputsSplit(c, s, t, x + c.ratio);
    }
  }

  /** Dropping samples from the front moves the phase. */
  lemma {:induction false} OutputsShift(c: Config, s: seq<int>, d: nat, x: int)
    requires Valid(c) && c.n * ONE <= x && d <= |s|
    ensures Outputs(c, s, x + d * ONE) == Outputs(c, s[d..], x)
    decreases |s| * ONE - x
  {
    if x < (|s| - d - 1) * ONE {
      OutputShift(c, s, d, x);
      OutputsShift(c, s, d, x + c.ratio);
    }
  }

  /** However the stream is cut, the calls put out what one pass over it would. */
  lemma {:induction false} ChunkedIsWhole(c: Config, kept: seq<int>, x: int, chunks: seq<seq<int>>)
    requires Valid(c) && c.n * ONE <= x
    requires if chunks == [] then Outputs(c, kept, x) == [] else |kept| + |chunks[0]| > c.n
    ensures Chunked(c, kept, x, chunks) == Outputs(c, kept + Join(chunks), x)
    decreases |chunks|
  {
    hide Outputs, Next, Valid;
    if chunks == [] {
      assert kept + Join(chunks) == kept;
    } else {
      var s, rest := kept + chunks[0], Join(chunks[1..]);
      var d := |s| - c.n - 1;
      var kept', x' := s[d..], Next(c, |s|, x);
      NothingLeft(c, kept', x');
      ChunkedIsWhole(c, kept', x', chunks[1..]);
      Handover(c, s, rest, x);
      assert kept + Join(chunks) == s + rest;
    }
  }

  /** The kept samples alone give no further output. */
  lemma NothingLeft(c: Config, kept: seq<int>, x: int)
    requires Valid(c) && c.n * ONE <= x && |kept| == c.n + 1
    ensures Outputs(c, kept, x) == []
  {
  }

  lemma StopIsNext(c: Config, length: nat, x: int)
    requires Valid(c)
    ensures Stop(c, length, x) == Next(c, length, x) + (length - c.n - 1) * ONE
  {
    hide Stop;
  }

  /** One call, then the rest of the stream behind the kept samples. */
  lemma Handover(c: Config, s: seq<int>, rest: seq<int>, x: int)
    requires Valid(c) && c.n * ONE <= x && |s| > c.n
    ensures Outputs(c, s + rest, x) == Outputs(c, s, x) + Outputs(c, s[|s| - c.n - 1..] + rest, Next(c, |s|, x))
  {
    hide Outputs, Stop, Next;
    var d := |s| - c.n - 1;
    assert (s + rest)[d..] == s[d..] + rest;
    OutputsSplit(c, s, rest, x);
    StopIsNext(c, |s|, x);
    OutputsShift(c, s + rest, d, Next(c, |s|, x));
  }

  /** Output `j` is taken at the start phase plus `j` steps; there is one for each such
      phase that lies before the last sample. */
  lemma {:induction false} OutputPhase(c: Config, s: seq<int>, x: int, j: nat)
    requires Valid(c) && c.n * ONE <= x
    ensures j < |Outputs(c, s, x)| <==> x + j * c.ratio < (|s| - 1) * ONE
    ensures j < |Outputs(c, s, x)| ==> c.n * ONE <= x + j * c.ratio && Outputs(c, s, x)[j] == Output(c, s, x + j * c.ratio)
    decreases j
  {
    hide Outputs, Output, Stop;
    StepsOn(x, j, c.ratio);
    OutputsStep(c, s, x);
    if j > 0 && x < (|s| - 1) * ONE {
      OutputPhase(c, s, x + c.ratio, j - 1);
    }
  }

  lemma StepsOn(x: int, j: nat, step: nat)
    ensures x <= x + j * step && (j > 0 ==> x + j * step == x + step + (j - 1) * step)
  {
  }

  /** No phase of a call leaves the 32 bits it is kept in, for the buffer of 40000 samples
      and steps of at most 0x4000_0000; and the next call starts in bounds again. */
  lemma {:induction false} PhasesFit(c: Config, length: nat, x: int)
    requires Valid(c) && c.n < length <= 40000 && c.ratio <= 0x4000_0000
    requires c.n * ONE <= x < (length - 1) * ONE + c.ratio
    ensures Stop(c, length, x) < (length - 1) * ONE + c.ratio < 0x1_0000_0000
    ensures Next(c, length, x) < c.n * ONE + c.ratio
    decreases length * ONE - x
  {
    if x < (length - 1) * ONE {
      PhasesFit(c, length, x + c.ratio);
    }
  }

  // What an output is.

  /** The `k` newest of the samples up to `at`, each with its coefficient, the newest with the
      first: what the filter makes of one place. */
  function Weighted(c: Config, s: seq<int>, at: int, k: nat): int
    requires Valid(c) && k <= c.n && k - 1 <= at < |s|
  {
    if k == 0 then 0 else Weighted(c, s, at, k - 1) + s[at - (k - 1)] * c.coeffs[k - 1] / 64
  }

  /** The oldest tap goes with the last coefficient. */
  lemma {:induction false} TapsFrom(c: Config, s: seq<int>, at: int, k: nat)
    requires Valid(c) && k <= c.n && c.n - 1 <= at < |s|
    ensures Weighted(c, s, at, c.n) == Weighted(c, s, at, c.n - k) + Taps(c, s, at - c.n, k)
    decreases k
  {
    if k > 0 {
      TapsFrom(c, s, at, k - 1);
    }
  }

  /** At a whole phase the output is what the filter makes of that place. */
  lemma WholePhase(c: Config, s: seq<int>, k: int)
    requires Valid(c) && Inside(c, s, k * ONE)
    ensures Output(c, s, k * ONE) == Weighted(c, s, k, c.n) / 2048
  {
    hide Taps, Weighted;
    TapsAre(c, s, k);
    assert k * ONE / ONE == k && k * ONE % ONE == 0;
    BlendFirst(Taps(c, s, k - c.n, c.n), Taps(c, s, k - c.n + 1, c.n));
  }

  lemma TapsAre(c: Config, s: seq<int>, at: int)
    requires Valid(c) && c.n - 1 <= at < |s|
    ensures Taps(c, s, at - c.n, c.n) == Weighted(c, s, at, c.n)
  {
    TapsFrom(c, s, at, c.n);
  }

  lemma BlendFirst(acc: int, acc2: int)
    ensures Blend(acc, acc2, 0) == acc / 2048
  {
  }

  /** Between two whole phases the output is between theirs, and moves on to the later one. */
  lemma BetweenPhases(c: Config, s: seq<int>, x: int, y: int)
    requires Valid(c) && Inside(c, s, x) && Inside(c, s, y) && x <= y && x / ONE == y / ONE
    ensures var from, to := Weighted(c, s, x / ONE, c.n), Weighted(c, s, x / ONE + 1, c.n);
      && (from <= to ==> from / 2048 <= Output(c, s, x) <= Output(c, s, y) <= to / 2048)
      && (from >= to ==> from / 2048 >= Output(c, s, x) >= Output(c, s, y) >= to / 2048)
  {
    hide Taps, Weighted, Blend;
    TapsAre(c, s, x / ONE);
    TapsAre(c, s, x / ONE + 1);
    BlendMoves(Weighted(c, s, x / ONE, c.n), Weighted(c, s, x / ONE + 1, c.n), x % ONE, y % ONE);
  }

  lemma BlendMoves(from: int, to: int, f: int, g: int)
    requires 0 <= f <= g < ONE
    ensures from <= to ==> from / 2048 <= Blend(from, to, f) <= Blend(from, to, g) <= to / 2048
    ensures from >= to ==> from / 2048 >= Blend(from, to, f) >= Blend(from, to, g) >= to / 2048
  {
    BlendSum(from, to, f);
    BlendSum(from, to, g);
    Product(to - from, f, g);
    hide Blend;
  }

  /** The way from one sum to the other, in steps of a fraction. */
  lemma BlendSum(from: int, to: int, f: int)
    ensures Blend(from, to, f) == (from * ONE + (to - from) * f) / 0x800_0000
    ensures from / 2048 == from * ONE / 0x800_0000 && to / 2048 == (from * ONE + (to - from) * ONE) / 0x800_0000
  {
    assert from * (ONE - f) + to * f == from * ONE + (to - from) * f;
  }

  lemma Product(d: int, f: int, g: int)
    requires 0 <= f <= g < ONE
    ensures d >= 0 ==> 0 <= d * f <= d * g <= d * ONE
    ensures d <= 0 ==> 0 >= d * f >= d * g >= d * ONE
  {
  }

  /** A single sample plays the coefficients in their order. */
  lemma Impulse(c: Config, s: seq<int>, p: nat, k: int)
    requires Valid(c) && Inside(c, s, k * ONE) && p < |s| && forall i :: 0 <= i < |s| && i != p ==> s[i] == 0
    ensures Output(c, s, k * ONE) == if 0 <= k - p < c.n then s[p] * c.coeffs[k - p] / 64 / 2048 else 0
  {
    hide Output, Weighted;
    WholePhase(c, s, k);
    WeightedImpulse(c, s, p, k, c.n);
  }

  lemma {:induction false} WeightedImpulse(c: Config, s: seq<int>, p: nat, at: int, k: nat)
    requires Valid(c) && k <= c.n && k - 1 <= at < |s| && p < |s| && forall i :: 0 <= i < |s| && i != p ==> s[i] == 0
    ensures Weighted(c, s, at, k) == if 0 <= at - p < k then s[p] * c.coeffs[at - p] / 64 else 0
  {
    if k > 0 {
      WeightedImpulse(c, s, p, at, k - 1);
    }
  }

  // The high-pass and low-pass filters, which carry accumulators from call to call.

  datatype Gains = Gains(volume: int, mul1: int, mul2: int)

  datatype Accumulators = Accumulators(acc1: int, acc2: int)

  function Next1(g: Gains, a: Accumulators, x: int): Accumulators
  {
    var acc1 := a.acc1 + (x * g.volume - a.acc1) * g.mul1 / ONE;
    Accumulators(acc1, a.acc2 + (x * g.volume - acc1 - a.acc2) * g.mul2 / ONE)
  }

  function Clamp(t: int): int
  {
    if t > 32767 then 32767 else if t < -32768 then -32768 else t
  }

  /** What fits in sixteen bits stays, anything else goes to the nearer end. */
  lemma ClampMeans(t: int)
    ensures -0x8000 <= Clamp(t) < 0x8000 && (-0x8000 <= t < 0x8000 ==> Clamp(t) == t)
    ensures t >= 0x8000 ==> Clamp(t) == 0x7FFF
    ensures t < -0x8000 ==> Clamp(t) == -0x8000
  {
  }

  /** The filter over a sequence: the outputs, and the accumulators afterwards. */
  function Sexy(g: Gains, a: Accumulators, xs: seq<int>): (r: (seq<int>, Accumulators))
    ensures |r.0| == |xs|
    decreases |xs|
  {
    if xs == [] then ([], a)
    else
      var x, last := xs[|xs| - 1], Sexy(g, a, xs[..|xs| - 1]);
      var b := Next1(g, last.1, x);
      (last.0 + [Clamp((b.acc1 - x * g.volume + b.acc2) / ONE)], b)
  }

  lemma SexyStep(g: Gains, a: Accumulators, xs: seq<int>, i: nat)
    requires i < |xs|
    ensures var last := Sexy(g, a, xs[..i]);
      var b := Next1(g, last.1, xs[i]);
      Sexy(g, a, xs[..i + 1]) == (last.0 + [Clamp((b.acc1 - xs[i] * g.volume + b.acc2) / ONE)], b)
  {
    hide Next1, Clamp;
    assert xs[..i + 1][..i] == xs[..i];
  }

  lemma SexyNone(g: Gains, a: Accumulators)
    ensures Sexy(g, a, []) == ([], a)
  {
  }

  lemma {:induction false} SexyAppend(g: Gains, a: Accumulators, xs: seq<int>, ys: seq<int>)
    ensures Sexy(g, a, xs + ys).0 == Sexy(g, a, xs).0 + Sexy(g, Sexy(g, a, xs).1, ys).0
    ensures Sexy(g, a, xs + ys).1 == Sexy(g, Sexy(g, a, xs).1, ys).1
    decreases |ys|
  {
    hide Next1, Clamp;
    if ys == [] {
      assert xs + ys == xs;
    } else {
      assert (xs + ys)[..|xs + ys| - 1] == xs + ys[..|ys| - 1];
      SexyAppend(g, a, xs, ys[..|ys| - 1]);
    }
  }

  /** The calls with the filter behind each. */
  function ChunkedFiltered(c: Config, g: Gains, kept: seq<int>, x: int, a: Accumulators, chunks: seq<seq<int>>): seq<int>
    requires Valid(c) && c.n * ONE <= x
    requires chunks != [] ==> |kept| + |chunks[0]| > c.n
    decreases |chunks|
  {
    if chunks == [] then []
    else
      var s := kept + chunks[0];
      var r := Sexy(g, a, Outputs(c, s, x));
      r.0 + ChunkedFiltered(c, g, s[|s| - c.n - 1..], Next(c, |s|, x), r.1, chunks[1..])
  }

  lemma {:induction false} FilteredOnce(c: Config, g: Gains, kept: seq<int>, x: int, a: Accumulators, chunks: seq<seq<int>>)
    requires Valid(c) && c.n * ONE <= x
    requires chunks != [] ==> |kept| + |chunks[0]| > c.n
    ensures ChunkedFiltered(c, g, kept, x, a, chunks) == Sexy(g, a, Chunked(c, kept, x, chunks)).0
    decreases |chunks|
  {
    hide Outputs, Next;
    if chunks != [] {
      var s := kept + chunks[0];
      var r := Sexy(g, a, Outputs(c, s, x));
      var kept', x' := s[|s| - c.n - 1..], Next(c, |s|, x);
      FilteredOnce(c, g, kept', x', r.1, chunks[1..]);
      SexyAppend(g, a, Outputs(c, s, x), Chunked(c, kept', x', chunks[1..]));
    }
  }

  /** From the state after start-up: the sound does not depend on how the stream was cut. */
  lemma StreamIsWhole(c: Config, g: Gains, a: Accumulators, chunks: seq<seq<int>>)
    requires Valid(c) && chunks != [] && |chunks[0]| > c.n
    ensures ChunkedFiltered(c, g, [], (c.n + 1) * ONE, a, chunks) == Sexy(g, a, Outputs(c, Join(chunks), (c.n + 1) * ONE)).0
  {
    FilteredOnce(c, g, [], (c.n + 1) * ONE, a, chunks);
    ChunkedIsWhole(c, [], (c.n + 1) * ONE, chunks);
    assert [] + Join(chunks) == Join(chunks);
  }

  /** The resampler in place: the phase is kept from call to call. */
  class Filter {
    const config: Config
    const gains: Gains
    var index: int
    var acc1: int
    var acc2: int

    constructor (config: Config, gains: Gains)
      requires Valid(config)
      ensures this.config == config && this.gains == gains
      ensures index == (config.n + 1) * ONE && acc1 == 0 && acc2 == 0
    {
      this.config, this.gains := config, gains;
      index := (config.n + 1) * ONE;
      acc1, acc2 := 0, 0;
    }

    ghost predicate Ready()
      reads this
    {
      Valid(config) && config.n * ONE <= index
    }

    /** The two inner sums of one output. */
    method Sums(samples: array<int>, length: nat, x: int) returns (acc: int, acc2: int)
      requires Valid(config) && length <= samples.Length && Inside(config, samples[..length], x)
      ensures acc == Taps(config, samples[..length], x / ONE - config.n, config.n)
      ensures acc2 == Taps(config, samples[..length], x / ONE - config.n + 1, config.n)
    {
      ghost var s := samples[..length];
      var at := x / ONE - config.n;
      acc, acc2 := 0, 0;
      var c := 0;
      while c < config.n
        invariant 0 <= c <= config.n
        invariant acc == Taps(config, s, at, c) && acc2 == Taps(config, s, at + 1, c)
      {
        c := c + 1;
        acc := acc + samples[at + c] * config.coeffs[config.n - c] / 64;
        acc2 := acc2 + samples[at + 1 + c] * config.coeffs[config.n - c] / 64;
      }
    }

    method Resample(samples: array<int>, length: nat) returns (out: seq<int>, leftover: nat)
      requires Ready() && config.n < length <= samples.Length
      modifies this`index
      ensures Ready()
      ensures out == Outputs(config, samples[..length], old(index))
      ensures index == Next(config, length, old(index)) && leftover == config.n + 1
    {
      hide Outputs, Stop, Taps, Blend;
      ghost var s := samples[..length];
      var max := (length - 1) * ONE;
      var x := index;
      out := [];
      while x < max
        invariant config.n * ONE <= x
        invariant Outputs(config, s, old(index)) == out + Outputs(config, s, x)
        invariant Stop(config, length, old(index)) == Stop(config, length, x)
        decreases max - x
      {
        var acc, acc2 := Sums(samples, length, x);
        OutputsStep(config, s, x);
        out := out + [Blend(acc, acc2, x % ONE)];
        x := x + config.ratio;
      }
      OutputsStep(config, s, x);
      index := x - max;
      index := index + config.n * ONE;
      leftover := config.n + 1;
    }

    method SexyFilter(sound: array<int>, count: nat)
      requires count <= sound.Length
      modifies this`acc1, this`acc2, sound
      ensures sound[..count] == Sexy(gains, Accumulators(old(acc1), old(acc2)), old(sound[..count])).0
      ensures Accumulators(acc1, acc2) == Sexy(gains, Accumulators(old(acc1), old(acc2)), old(sound[..count])).1
      ensures sound[count..] == old(sound[count..])
    {
      hide Sexy;
      ghost var a, xs := Accumulators(acc1, acc2), sound[..];
      SexyNone(gains, a);
      var i := 0;
      while i < count
        invariant 0 <= i <= count
        invariant sound[..i] == Sexy(gains, a, xs[..i]).0
        invariant Accumulators(acc1, acc2) == Sexy(gains, a, xs[..i]).1
        invariant sound[i..] == xs[i..]
      {
        SexyStep(gains, a, xs, i);
        assert sound[i] == sound[i..][0] == xs[i];
        var ino := sound[i] * gains.volume;
        acc1 := acc1 + (ino - acc1) * gains.mul1 / ONE;
        acc2 := acc2 + (ino - acc1 - acc2) * gains.mul2 / ONE;
        var t := (acc1 - ino + acc2) / ONE;
        if t > 32767 {
          t := 32767;
        }
        if t < -32768 {
          t := -32768;
        }
        sound[i] := t;
        i := i + 1;
      }
      assert sound[count..] == xs[count..];
    }

    /** The caller's move of the kept samples to the front; what is behind them is silence. */
    static method KeepLast(samples: array<int>, length: nat, left: nat)
      requires left <= length <= samples.Length
      modifies samples
      ensures samples[..left] == old(samples[length - left..length])
      ensures forall i :: left <= i < samples.Length ==> samples[i] == 0
    {
      for i := 0 to left
        invariant samples[..i] == old(samples[length - left..length - left + i])
        invariant forall k :: i <= k < samples.Length ==> samples[k] == old(samples[k])
      {
        samples[i] := samples[length - left + i];
      }
      for i := left to samples.Length
        invariant samples[..left] == old(samples[length - left..length])
        invariant forall k :: left <= k < i ==> samples[k] == 0
      {
        samples[i] := 0;
      }
    }

    /** The new samples of a chunk, behind the kept ones. */
    static method Fill(samples: array<int>, left: nat, chunk: seq<int>)
      requires left + |chunk| <= samples.Length
      modifies samples
      ensures samples[..left + |chunk|] == old(samples[..left]) + chunk
    {
      for i := 0 to |chunk|
        invariant samples[..left + i] == old(samples[..left]) + chunk[..i]
      {
        samples[left + i] := chunk[i];
        assert samples[..left + i + 1] == samples[..left + i] + [chunk[i]];
      }
    }

    /** FlushEmulateSound with a filter set: one chunk goes in behind the kept samples, and its
        sound comes out. */
    method Flush(samples: array<int>, left: nat, chunk: seq<int>) returns (sound: seq<int>, leftover: nat)
      requires Ready() && config.n < left + |chunk| <= samples.Length
      modifies this`index, this`acc1, this`acc2, samples
      ensures Ready() && leftover == config.n + 1
      ensures var s := old(samples[..left]) + chunk;
        && (sound, Accumulators(acc1, acc2)) == Sexy(gains, Accumulators(old(acc1), old(acc2)), Outputs(config, s, old(index)))
        && index == Next(config, |s|, old(index)) && samples[..leftover] == s[|s| - leftover..]
    {
      hide Sexy, Outputs, Next;
      ghost var s := samples[..left] + chunk;
      Fill(samples, left, chunk);
      var out;
      out, leftover := Resample(samples, left + |chunk|);
      var wave := new int[|out|](i requires 0 <= i < |out| => out[i]);
      assert wave[..|out|] == out;
      SexyFilter(wave, |out|);
      sound := wave[..|out|];
      KeepLast(samples, left + |chunk|, leftover);
      assert s[|s| - leftover..] == s[|s| - leftover..|s|];
    }

    /** The whole stream, flush after flush. */
    method Play(samples: array<int>, chunks: seq<seq<int>>) returns (sound: seq<int>)
      requires Ready() && (chunks != [] ==> |chunks[0]| > config.n)
      requires forall k :: 0 <= k < |chunks| ==> (if k == 0 then 0 else config.n + 1) + |chunks[k]| <= samples.Length
      modifies this`index, this`acc1, this`acc2, samples
      ensures sound == ChunkedFiltered(config, gains, [], old(index), Accumulators(old(acc1), old(acc2)), chunks)
    {
      hide Sexy, Outputs, Next;
      ghost var whole := ChunkedFiltered(config, gains, [], index, Accumulators(acc1, acc2), chunks);
      sound := [];
      var left := 0;
      for i := 0 to |chunks|
        invariant Ready() && left == (if i == 0 then 0 else config.n + 1) && left <= samples.Length
        invariant whole == sound + ChunkedFiltered(config, gains, samples[..left], index, Accumulators(acc1, acc2), chunks[i..])
      {
        ghost var rest := chunks[i..];
        assert rest[0] == chunks[i] && rest[1..] == chunks[i + 1..];
        var part;
        part, left := Flush(samples, left, chunks[i]);
        sound := sound + part;
      }
    }

    /** From start-up on, the flushes sound as one pass over the whole stream would. */
    method PlayFromStart(samples: array<int>, chunks: seq<seq<int>>) returns (sound: seq<int>)
      requires Valid(config) && index == (config.n + 1) * ONE && chunks != [] && |chunks[0]| > config.n
      requires forall k :: 0 <= k < |chunks| ==> (if k == 0 then 0 else config.n + 1) + |chunks[k]| <= samples.Length
      modifies this`index, this`acc1, this`acc2, samples
      ensures sound == Sexy(gains, Accumulators(old(acc1), old(acc2)), Outputs(config, Join(chunks), old(index))).0
    {
      hide Sexy, Outputs, ChunkedFiltered, Join;
      StreamIsWhole(config, gains, Accumulators(acc1, acc2), chunks);
      sound := Play(samples, chunks);
    }
  }
}
