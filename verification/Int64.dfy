/** 64-bit division from 32-bit words: the compiler run-time routines of a 32-bit machine. */
module Int64 {
  import opened Bits
  import Shifts

  type U32 = x: int | 0 <= x < 0x1_0000_0000
  type U64 = x: int | 0 <= x < 0x1_0000_0000_0000_0000

  const TWO32: int := 0x1_0000_0000
  const TWO64: int := 0x1_0000_0000_0000_0000

  function Join(high: U32, low: U32): U64
  {
    TWO32 * high + low
  }

  function HighWord(x: U64): U32
  {
    x / TWO32
  }

  function LowWord(x: U64): U32
  {
    x % TWO32
  }

  function And32(a: U32, b: U32): U32
  {
    Pow2Values();
    BitOp(And, 32, a, b)
  }

  function Or32(a: U32, b: U32): U32
  {
    Pow2Values();
    BitOp(Or, 32, a, b)
  }

  /** A 32-bit shift left loses what leaves the word. */
  function ShiftLeft(a: U32, n: nat): U32
  {
    Pow2Values();
    Low(Up(a, n), 32)
  }

  function ShiftRight(a: U32, n: nat): U32
  {
    Shifts.HighBound(a, n);
    High(a, n)
  }

  predicate LeadingZeros(a: U32, r: nat)
  {
    r < 32 && Pow2(31 - r) <= a < Pow2(32 - r)
  }

  predicate TrailingZeros(a: U32, r: nat)
  {
    r < 32 && Low(a, r) == 0 && High(a, r) % 2 == 1
  }

  /** A mask over the digits from the `m`-th to below the `m + k`-th finds out whether a
      number of `m + k` digits has any of them set. */
  lemma {:induction false} MaskHigh(n: nat, m: nat, k: nat, a: nat)
    requires m + k <= n && a < Pow2(m + k)
    ensures BitOp(And, n, a, Up(Pow2(k) - 1, m)) == 0 <==> a < Pow2(m)
  {
    if m > 0 {
      MaskHigh(n - 1, m - 1, k, a / 2);
      assert Up(Pow2(k) - 1, m) % 2 == 0;
    } else {
      AndMask(n, k, a);
      Shifts.LowSmall(a, k);
    }
  }

  /** The search for the leading one has narrowed to `w` digits, read as `x`. */
  predicate ClzWindow(a: U32, r: nat, w: nat, x: U32)
  {
    r + w <= 32 && x == High(a, 32 - r - w) && 1 <= x < Pow2(w)
  }

  lemma ClzStep(a: U32, r: nat, h: nat, x: U32, mask: U32, t: nat)
    requires ClzWindow(a, r, 2 * h, x) && mask == Up(Pow2(h) - 1, h)
    requires t == if And32(x, mask) == 0 then h else 0
    ensures ClzWindow(a, r + t, h, ShiftRight(x, h - t))
  {
    hide BitOp, Up, Low, Pow2, High;
    MaskHigh(32, h, h, x);
    Shifts.HighAdd(a, 32 - r - 2 * h, h - t);
    Shifts.HighSmall(x, 2 * h, h);
    if t == 0 {
      HighPositive(x, h);
    } else {
      HighNought(x);
    }
  }

  lemma {:induction false} HighPositive(x: nat, h: nat)
    requires x >= Pow2(h)
    ensures High(x, h) >= 1
  {
    if h > 0 {
      HighPositive(x / 2, h - 1);
    }
  }

  lemma Masks()
    ensures 0xFFFF_0000 == Up(Pow2(16) - 1, 16) && 0xFF00 == Up(Pow2(8) - 1, 8)
    ensures 0xF0 == Up(Pow2(4) - 1, 4) && 0xC == Up(Pow2(2) - 1, 2)
  {
    Pow2Values();
    UpMul(Pow2(16) - 1, 16);
    UpMul(Pow2(8) - 1, 8);
  }

  lemma ClzStart(a: U32)
    requires a != 0
    ensures ClzWindow(a, 0, 32, a)
  {
    Pow2Values();
  }

  /** Minus a truth value is a mask. */
  function MaskOf(b: bool): U32
  {
    if b then TWO32 - 1 else 0
  }

  lemma AndMaskOf(v: U32, b: bool)
    ensures And32(v, MaskOf(b)) == if b then v else 0
    ensures And32(MaskOf(b), v) == if b then v else 0
  {
    hide BitOp, Low;
    Pow2Values();
    AndMask(32, 32, v);
    Shifts.LowSmall(v, 32);
    AndMask(32, 0, v);
    assert Low(v, 0) == 0;
  }

  lemma SecondDigit(x: U32)
    requires 1 <= x < 4
    ensures And32(x, 2) == 0 <==> x == 1
  {
    hide BitOp;
    assert 2 == Up(Pow2(1) - 1, 1) && Pow2(1) == 2 && Pow2(2) == 4;
    MaskHigh(32, 1, 1, x);
  }

  lemma QuarterRange(a: int, p: int, x: int, low: int)
    requires a == x * p + low && 0 <= low < p && 1 <= x < 4
    ensures if x == 1 then p <= a < 2 * p else 2 * p <= a < 4 * p
  {
    if x == 2 {
      assert a == 2 * p + low;
    } else if x == 3 {
      assert a == 3 * p + low;
    }
  }

  lemma ClzEnd(a: U32, r: nat, x: U32)
    requires ClzWindow(a, r, 2, x)
    ensures And32(x, 2) == 0 <==> x == 1
    ensures 1 <= x < 4 && LeadingZeros(a, r + if x == 1 then 1 else 0)
  {
    hide BitOp, High, Low, Pow2, And32;
    PowerDouble(30 - r);
    PowerDouble(31 - r);
    PowerDouble(1);
    Pow2One();
    SecondDigit(x);
    HighLow(a, 30 - r);
    QuarterRange(a, Pow2(30 - r), x, Low(a, 30 - r));
  }

  method Clzsi2(a: U32) returns (r: nat)
    requires a != 0
    ensures LeadingZeros(a, r)
  {
    hide And32, ShiftRight, Up, Pow2, BitOp, ClzWindow, LeadingZeros;
    Masks();
    ClzStart(a);
    var x := a;
    var t := if And32(x, 0xFFFF_0000) == 0 then 16 else 0;
    ClzStep(a, 0, 16, x, 0xFFFF_0000, t);
    x := ShiftRight(x, 16 - t);
    r := t;
    t := if And32(x, 0xFF00) == 0 then 8 else 0;
    ClzStep(a, r, 8, x, 0xFF00, t);
    x := ShiftRight(x, 8 - t);
    r := r + t;
    t := if And32(x, 0xF0) == 0 then 4 else 0;
    ClzStep(a, r, 4, x, 0xF0, t);
    x := ShiftRight(x, 4 - t);
    r := r + t;
    t := if And32(x, 0xC) == 0 then 2 else 0;
    ClzStep(a, r, 2, x, 0xC, t);
    x := ShiftRight(x, 2 - t);
    r := r + t;
    ClzEnd(a, r, x);
    AndMaskOf((2 - x) % TWO32, And32(x, 2) == 0);
    r := r + And32((2 - x) % TWO32, MaskOf(And32(x, 2) == 0));
  }

  /** The search for the trailing one has narrowed to the low `w` digits of `x`. */
  predicate CtzWindow(a: U32, r: nat, w: nat, x: U32)
  {
    r + w <= 32 && x == High(a, r) && Low(a, r) == 0 && Low(x, w) != 0
  }

  lemma CtzStep(a: U32, r: nat, h: nat, x: U32, mask: U32, t: nat)
    requires CtzWindow(a, r, 2 * h, x) && mask == Pow2(h) - 1
    requires t == if And32(x, mask) == 0 then h else 0
    ensures CtzWindow(a, r + t, h, ShiftRight(x, t))
  {
    hide BitOp;
    AndMask(32, h, x);
    Shifts.HighAdd(a, r, t);
    LowHigh(x, h, h);
    LowHigh(a, r, t);
    if t == 0 {
      assert High(x, 0) == x;
    }
  }

  /** The low `m + n` digits: the low `m` and the next `n`. */
  lemma {:induction false} LowHigh(x: nat, m: nat, n: nat)
    ensures Low(x, m + n) == Low(x, m) + Up(Low(High(x, m), n), m)
    ensures Low(x, m + n) == 0 <==> Low(x, m) == 0 && Low(High(x, m), n) == 0
  {
    if m > 0 {
      LowHigh(x / 2, m - 1, n);
    }
  }

  lemma CtzStart(a: U32)
    requires a != 0
    ensures CtzWindow(a, 0, 32, a)
  {
    Pow2Values();
    Shifts.LowSmall(a, 32);
  }

  lemma CtzMasks()
    ensures 0xFFFF == Pow2(16) - 1 && 0xFF == Pow2(8) - 1 && 0xF == Pow2(4) - 1 && 3 == Pow2(2) - 1 && 1 == Pow2(1) - 1
  {
    Pow2Values();
  }

  lemma TwoDigits(x: nat)
    ensures Low(x, 2) == x % 2 + 2 * (x / 2 % 2) && Low(x, 1) == x % 2 && High(x, 1) == x / 2
  {
  }

  lemma CtzEnd(a: U32, r: nat, x: U32, y: U32)
    requires CtzWindow(a, r, 2, x) && y == And32(x, 3)
    ensures 1 <= y <= 3 && (And32(y, 1) == 0 <==> y == 2) && ShiftRight(y, 1) == y / 2
    ensures TrailingZeros(a, r + if y == 2 then 1 else 0)
  {
    CtzMasks();
    hide BitOp, High, Low, Pow2;
    AndMask(32, 2, x);
    AndMask(32, 1, y);
    TwoDigits(x);
    TwoDigits(y);
    Shifts.HighAdd(a, r, 1);
    LowHigh(a, r, 1);
  }

  method Ctzsi2(a: U32) returns (r: nat)
    requires a != 0
    ensures TrailingZeros(a, r)
  {
    hide And32, ShiftRight, Up, Pow2, BitOp, CtzWindow, TrailingZeros;
    CtzMasks();
    CtzStart(a);
    var x := a;
    var t := if And32(x, 0xFFFF) == 0 then 16 else 0;
    CtzStep(a, 0, 16, x, 0xFFFF, t);
    x := ShiftRight(x, t);
    r := t;
    t := if And32(x, 0xFF) == 0 then 8 else 0;
    CtzStep(a, r, 8, x, 0xFF, t);
    x := ShiftRight(x, t);
    r := r + t;
    t := if And32(x, 0xF) == 0 then 4 else 0;
    CtzStep(a, r, 4, x, 0xF, t);
    x := ShiftRight(x, t);
    r := r + t;
    t := if And32(x, 0x3) == 0 then 2 else 0;
    CtzStep(a, r, 2, x, 0x3, t);
    x := ShiftRight(x, t);
    CtzEnd(a, r + t, x, And32(x, 3));
    x := And32(x, 3);
    r := r + t;
    AndMaskOf(2 - ShiftRight(x, 1), And32(x, 1) == 0);
    r := r + And32(2 - ShiftRight(x, 1), MaskOf(And32(x, 1) == 0));
  }

  // Shifting the dividend into quotient and remainder.

  lemma {:induction false} UpAdd(a: nat, m: nat, n: nat)
    ensures Up(Up(a, m), n) == Up(a, m + n)
  {
    if n > 0 {
      UpAdd(a, m, n - 1);
    }
  }

  lemma {:induction false} UpSum(a: nat, b: nat, n: nat)
    ensures Up(a + b, n) == Up(a, n) + Up(b, n)
  {
    if n > 0 {
      UpSum(a, b, n - 1);
    }
  }

  lemma JoinUp(high: U32, low: U32)
    ensures Join(high, low) == Up(high, 32) + low
  {
    UpMul(high, 32);
    Pow2Values();
  }

  /** A word moved up by `32 - s` places within a double word. */
  lemma UpSplit(a: U32, s: nat)
    requires 0 < s <= 32
    ensures Up(a, 32 - s) == TWO32 * High(a, s) + ShiftLeft(a, 32 - s)
    ensures ShiftLeft(a, 32 - s) == Up(Low(a, s), 32 - s)
  {
    hide Up, High, Low, Pow2;
    Pow2Values();
    Shifts.LowUp(a, 32 - s, s);
    HighLow(Up(a, 32 - s), 32);
    Shifts.HighUp(a, 32 - s, 32);
  }

  /** The two pieces of adjacent words that meet in one word do not overlap. */
  lemma OrPieces(a: U32, b: U32, s: nat)
    requires 0 < s < 32
    ensures Or32(ShiftLeft(a, 32 - s), ShiftRight(b, s)) == ShiftLeft(a, 32 - s) + ShiftRight(b, s)
  {
    hide High, Low, BitOp, ShiftLeft;
    Pow2Values();
    UpSplit(a, s);
    Shifts.HighSmall(b, 32, s);
    OrDisjoint(32, 32 - s, Low(a, s), ShiftRight(b, s));
  }

  /** Quotient and remainder words after a shift by fewer than 32 places. */
  lemma ShortShift(nh: U32, nl: U32, s: nat)
    requires 0 < s < 32
    ensures Join(ShiftRight(nh, s), Or32(ShiftLeft(nh, 32 - s), ShiftRight(nl, s))) == High(Join(nh, nl), s)
    ensures Join(ShiftLeft(nl, 32 - s), 0) == Up(Low(Join(nh, nl), s), 64 - s)
  {
    hide High, Low, Up, Or32, ShiftLeft, Pow2;
    Pow2Values();
    JoinUp(nh, nl);
    OrPieces(nh, nl, s);
    UpSplit(nh, s);
    UpSplit(nl, s);
    Shifts.HighSplit(nh, 32, nl, s);
    Shifts.HighUp(nh, 32, s);
    LowOfJoin(nh, nl, s);
    UpAdd(Low(nl, s), 32 - s, 32);
    UpMul(ShiftLeft(nl, 32 - s), 32);
  }

  lemma {:induction false} LowOfSum(a: nat, b: nat, k: nat, s: nat)
    requires s <= k
    ensures Low(Up(a, k) + b, s) == Low(b, s)
  {
    if s > 0 {
      LowOfSum(a, b / 2, k - 1, s - 1);
      assert (Up(a, k) + b) / 2 == Up(a, k - 1) + b / 2;
    }
  }

  lemma LowOfJoin(nh: U32, nl: U32, s: nat)
    requires s <= 32
    ensures Low(Join(nh, nl), s) == Low(nl, s)
  {
    JoinUp(nh, nl);
    LowOfSum(nh, nl, 32, s);
  }

  /** By exactly 32 places. */
  lemma WordShift(nh: U32, nl: U32)
    ensures nh == High(Join(nh, nl), 32) && Join(0, nh) == nh
    ensures Join(nl, 0) == Up(Low(Join(nh, nl), 32), 32)
  {
    hide High, Low, Up, Pow2;
    Pow2Values();
    LowOfJoin(nh, nl, 32);
    Shifts.LowSmall(nl, 32);
    UpMul(nl, 32);
    HighLow(Join(nh, nl), 32);
    DivModUnique(Join(nh, nl), TWO32, nh, nl);
  }

  /** By more than 32 places. */
  lemma LongShift(nh: U32, nl: U32, s: nat)
    requires 32 < s < 64
    ensures Join(0, ShiftRight(nh, s - 32)) == High(Join(nh, nl), s)
    ensures Join(Or32(ShiftLeft(nh, 64 - s), ShiftRight(nl, s - 32)), ShiftLeft(nl, 64 - s)) == Up(Low(Join(nh, nl), s), 64 - s)
  {
    hide High, Low, Up, Or32, ShiftLeft, Pow2;
    Pow2Values();
    var k := s - 32;
    WordShift(nh, nl);
    Shifts.HighAdd(Join(nh, nl), 32, k);
    LowHigh(Join(nh, nl), 32, k);
    LowOfJoin(nh, nl, 32);
    Shifts.LowSmall(nl, 32);
    OrPieces(nh, nl, k);
    UpSplit(nh, k);
    UpSplit(nl, k);
    UpSum(nl, Up(Low(nh, k), 32), 32 - k);
    UpAdd(Low(nh, k), 32, 32 - k);
    UpAdd(Low(nh, k), 32 - k, 32);
    UpMul(ShiftLeft(nh, 32 - k), 32);
  }

  // The shift-and-subtract loop.

  function And64(a: U64, b: U64): U64
  {
    Pow2SixtyFour();
    BitOp(And, 64, a, b)
  }

  lemma Pow2SixtyFour()
    ensures Pow2(64) == TWO64 && Pow2(63) == TWO64 / 2
  {
    hide Pow2;
    Pow2Values();
    Pow2Add(32, 32);
    Pow2Add(1, 63);
    Pow2One();
  }

  lemma Pow2One()
    ensures Pow2(1) == 2
  {
  }

  /** An arithmetic shift of a double word by 63 places: the sign everywhere. */
  function SignMask(x: U64): U64
  {
    if x >= TWO64 / 2 then TWO64 - 1 else 0
  }

  lemma AndSignMask(v: U64, x: U64)
    ensures And64(v, SignMask(x)) == if x >= TWO64 / 2 then v else 0
    ensures And64(SignMask(x), 1) == if x >= TWO64 / 2 then 1 else 0
  {
    hide BitOp, Low, Pow2;
    Pow2SixtyFour();
    Pow2One();
    Pow2Nought();
    AndMask(64, 64, v);
    Shifts.LowSmall(v, 64);
    AndMask(64, 0, v);
    AndMask(64, 64, 1);
    Shifts.LowSmall(1, 64);
    AndMask(64, 0, 1);
  }

  lemma Pow2Nought()
    ensures Pow2(0) == 1 && forall v :: Low(v, 0) == 0
  {
  }

  /** A double word moved up by one place, a bit coming in. */
  lemma DoubleUp(h: U32, l: U32, c: U32)
    requires c < 2
    ensures Join(Or32(ShiftLeft(h, 1), ShiftRight(l, 31)), Or32(ShiftLeft(l, 1), c)) == (2 * Join(h, l) + c) % TWO64
    ensures ShiftRight(l, 31) < 2
    ensures ShiftRight(h, 31) == Join(h, l) / (TWO64 / 2)
  {
    hide High, Or32, ShiftLeft;
    TopDigit(h);
    TopDigit(l);
    OrBit(h, ShiftRight(l, 31));
    OrBit(l, c);
    JoinDouble(h, l, c);
  }

  lemma JoinDouble(h: U32, l: U32, c: U32)
    requires c < 2
    ensures TWO32 * (2 * h % TWO32 + l / 0x8000_0000) + (2 * l % TWO32 + c) == (2 * Join(h, l) + c) % TWO64
    ensures h / 0x8000_0000 == Join(h, l) / (TWO64 / 2)
  {
    var q, h', p, l' := h / 0x8000_0000, h % 0x8000_0000, l / 0x8000_0000, l % 0x8000_0000;
    assert h == q * 0x8000_0000 + h' && l == p * 0x8000_0000 + l';
    DivModUnique(2 * h, TWO32, q, 2 * h');
    DivModUnique(2 * l, TWO32, p, 2 * l');
    DivModUnique(2 * Join(h, l) + c, TWO64, q, TWO32 * (2 * h' + p) + (2 * l' + c));
    DivModUnique(Join(h, l), TWO64 / 2, q, TWO32 * h' + l);
  }

  lemma TopDigit(x: U32)
    ensures High(x, 31) == x / 0x8000_0000 && ShiftLeft(x, 1) == 2 * x % TWO32
  {
    hide High, Low, Up, Pow2;
    Pow2Values();
    Pow2One();
    Pow2Add(1, 31);
    HighLow(x, 31);
    UpMul(x, 1);
    HighLow(Up(x, 1), 32);
  }

  lemma OrBit(x: U32, c: U32)
    requires c < 2
    ensures Or32(ShiftLeft(x, 1), c) == ShiftLeft(x, 1) + c
  {
    hide High, Low, BitOp, ShiftLeft;
    Pow2Values();
    UpSplit(x, 31);
    OrDisjoint(32, 1, Low(x, 31), c);
  }

  /** `sr` digits of `n` are still to be divided: they stand at the top of `q`, the
      quotient digits below them, the last of these in `carry`. */
  predicate Dividing(n: U64, d: U64, sr0: nat, sr: nat, r: U64, q: U64, carry: int, low: nat)
  {
    && sr <= sr0 < 64 && 0 <= carry < 2
    && 2 * low + carry < Pow2(sr0 - sr)
    && r < d
    && q == Up(Low(n, sr), 64 - sr) + low
    && High(n, sr) == (2 * low + carry) * d + r
    && (d > TWO64 / 2 ==> sr0 == 1 && n >= TWO64 / 2)
  }

  /** The next digit of the dividend is the top digit of `q`. */
  lemma NextDigit(n: U64, sr: nat, low: nat, q: U64)
    requires 0 < sr < 64 && q == Up(Low(n, sr), 64 - sr) + low && low < Pow2(64 - sr)
    ensures var bit := High(n, sr - 1) % 2;
      && High(n, sr - 1) == 2 * High(n, sr) + bit
      && q / (TWO64 / 2) == bit
      && 2 * q % TWO64 == Up(Low(n, sr - 1), 65 - sr) + 2 * low
  {
    hide High, Low, Up, Pow2;
    var bit := High(n, sr - 1) % 2;
    Shifts.HighAdd(n, sr - 1, 1);
    LowHigh(n, sr - 1, 1);
    TwoDigits(High(n, sr - 1));
    UpSum(Low(n, sr - 1), Up(bit, sr - 1), 64 - sr);
    UpAdd(bit, sr - 1, 64 - sr);
    UpMul(bit, 63);
    Pow2SixtyFour();
    UpBound(Low(n, sr - 1), sr - 1, 64 - sr);
    UpAdd(Low(n, sr - 1), 64 - sr, 1);
    UpOne(Up(Low(n, sr - 1), 64 - sr));
    var rest := Up(Low(n, sr - 1), 64 - sr) + low;
    assert q == bit * (TWO64 / 2) + rest && rest < TWO64 / 2;
  }

  lemma UpOne(v: nat)
    ensures Up(v, 1) == 2 * v
  {
  }

  lemma {:induction false} UpBound(v: nat, k: nat, j: nat)
    requires v < Pow2(k)
    ensures Up(v, j) + Pow2(j) <= Pow2(k + j)
  {
    if j > 0 {
      UpBound(v, k, j - 1);
    }
  }

  /** The difference fits in a signed double word, so its sign tells the comparison. */
  lemma SignOfDifference(d: U64, r: U64)
    requires 0 < d && r < 2 * d && (d > TWO64 / 2 ==> r >= TWO64 / 2)
    ensures -TWO64 / 2 <= d - r - 1 < TWO64 / 2
    ensures (d - r - 1) % TWO64 >= TWO64 / 2 <==> r >= d
  {
  }

  lemma DivideStep(n: U64, d: U64, sr0: nat, sr: nat, r: U64, q: U64, carry: U32, low: nat, bit: int)
    requires Dividing(n, d, sr0, sr, r, q, carry, low) && sr > 0
    requires bit == q / (TWO64 / 2)
    ensures 0 <= bit < 2 && 2 * r + bit < TWO64
    ensures d > TWO64 / 2 ==> 2 * r + bit >= TWO64 / 2
    ensures var r' := 2 * r + bit;
      if r' >= d then Dividing(n, d, sr0, sr - 1, r' - d, 2 * q % TWO64 + carry, 1, 2 * low + carry)
      else Dividing(n, d, sr0, sr - 1, r', 2 * q % TWO64 + carry, 0, 2 * low + carry)
  {
    hide High, Low, Up, Pow2;
    PowerGrows(sr0 - sr, 64 - sr);
    PowerDouble(sr0 - sr);
    NextDigit(n, sr, low, q);
    var quot, r' := 2 * low + carry, 2 * r + bit;
    Shifts.HighBound(n, sr - 1);
    Expand(quot, d, r, bit);
    if d > TWO64 / 2 {
      assert sr == 1 && quot == 0 by {
        Pow2Nought();
      }
      HighNought(n);
    }
  }

  lemma HighNought(n: nat)
    ensures High(n, 0) == n
  {
  }

  lemma Expand(quot: nat, d: nat, r: nat, bit: nat)
    ensures 2 * (quot * d + r) + bit == (2 * quot) * d + (2 * r + bit)
    ensures (2 * quot) * d >= 0
    ensures (2 * quot) * d + (2 * r + bit) == (2 * quot + 1) * d + (2 * r + bit - d)
  {
  }

  lemma PowerDouble(m: nat)
    ensures Pow2(m + 1) == 2 * Pow2(m)
  {
  }

  lemma {:induction false} PowerGrows(m: nat, n: nat)
    requires m <= n
    ensures Pow2(m) <= Pow2(n)
  {
    if m < n {
      PowerGrows(m, n - 1);
    }
  }

  /** The branch-free subtraction: the mask is all ones just when the divisor goes in. */
  lemma MaskedSubtract(d: U64, r: U64)
    requires 0 < d && r < 2 * d && (d > TWO64 / 2 ==> r >= TWO64 / 2)
    ensures var s := SignMask((d - r - 1) % TWO64);
      && And64(s, 1) == (if r >= d then 1 else 0)
      && (r - And64(d, s)) % TWO64 == if r >= d then r - d else r
  {
    hide And64, SignMask;
    SignOfDifference(d, r);
    AndSignMask(d, (d - r - 1) % TWO64);
  }

  /** One place up for remainder and quotient together. */
  lemma ShiftAll(rh: U32, rl: U32, qh: U32, ql: U32, c: U32)
    requires c < 2
    ensures Join(Or32(ShiftLeft(rh, 1), ShiftRight(rl, 31)), Or32(ShiftLeft(rl, 1), ShiftRight(qh, 31)))
         == (2 * Join(rh, rl) + Join(qh, ql) / (TWO64 / 2)) % TWO64
    ensures Join(Or32(ShiftLeft(qh, 1), ShiftRight(ql, 31)), Or32(ShiftLeft(ql, 1), c)) == (2 * Join(qh, ql) + c) % TWO64
  {
    hide Or32, ShiftLeft, ShiftRight;
    DoubleUp(qh, ql, c);
    DoubleUp(qh, qh, 0);
    DoubleUp(rh, rl, ShiftRight(qh, 31));
  }

  /** One iteration keeps the division going. */
  lemma IterationOk(n: U64, d: U64, sr0: nat, sr: nat, rh: U32, rl: U32, qh: U32, ql: U32, carry: U32, low: nat)
    requires Dividing(n, d, sr0, sr, Join(rh, rl), Join(qh, ql), carry, low) && sr > 0
    ensures var rh', rl' := Or32(ShiftLeft(rh, 1), ShiftRight(rl, 31)), Or32(ShiftLeft(rl, 1), ShiftRight(qh, 31));
      var qh', ql' := Or32(ShiftLeft(qh, 1), ShiftRight(ql, 31)), Or32(ShiftLeft(ql, 1), carry);
      var s := SignMask((d - Join(rh', rl') - 1) % TWO64);
      && Dividing(n, d, sr0, sr - 1, (Join(rh', rl') - And64(d, s)) % TWO64, Join(qh', ql'), And64(s, 1), 2 * low + carry)
  {
    hide Dividing, Or32, ShiftLeft, ShiftRight, And64, SignMask, Join, High, Low, Up, Pow2;
    var r, q, bit := Join(rh, rl), Join(qh, ql), Join(qh, ql) / (TWO64 / 2);
    CarryBit(n, d, sr0, sr, r, q, carry, low);
    DivideStep(n, d, sr0, sr, r, q, carry, low, bit);
    ShiftAll(rh, rl, qh, ql, carry);
    EvenRoom(q, carry);
    WrapNothing(2 * r + bit);
    MaskedSubtract(d, 2 * r + bit);
  }

  lemma WrapNothing(x: int)
    requires 0 <= x < TWO64
    ensures x % TWO64 == x
  {
  }

  lemma CarryFits(d: U64, r: U64)
    ensures And64(SignMask((d - r - 1) % TWO64), 1) < 2
  {
    hide And64, SignMask;
    AndSignMask(d, (d - r - 1) % TWO64);
  }

  lemma EvenRoom(q: U64, c: int)
    requires 0 <= c < 2
    ensures (2 * q + c) % TWO64 == 2 * q % TWO64 + c
  {
  }

  method DivideLoop(ghost n: U64, d: U64, sr0: nat, rh0: U32, rl0: U32, qh0: U32, ql0: U32) returns (quot: U64, rem: U64)
    requires Dividing(n, d, sr0, sr0, Join(rh0, rl0), Join(qh0, ql0), 0, 0)
    ensures n == quot * d + rem && rem < d
  {
    hide Dividing, Or32, ShiftLeft, ShiftRight, And64, SignMask;
    var rh: U32, rl: U32, qh: U32, ql: U32 := rh0, rl0, qh0, ql0;
    var sr: nat, carry: U32 := sr0, 0;
    ghost var low: nat := 0;
    while sr > 0
      invariant 0 <= sr <= sr0 && Dividing(n, d, sr0, sr, Join(rh, rl), Join(qh, ql), carry, low)
      decreases sr
    {
      IterationOk(n, d, sr0, sr, rh, rl, qh, ql, carry, low);
      CarryFits(d, Join(Or32(ShiftLeft(rh, 1), ShiftRight(rl, 31)), Or32(ShiftLeft(rl, 1), ShiftRight(qh, 31))));
      rh := Or32(ShiftLeft(rh, 1), ShiftRight(rl, 31));
      rl := Or32(ShiftLeft(rl, 1), ShiftRight(qh, 31));
      qh := Or32(ShiftLeft(qh, 1), ShiftRight(ql, 31));
      ql := Or32(ShiftLeft(ql, 1), carry);
      var s := SignMask((d - Join(rh, rl) - 1) % TWO64);
      low := 2 * low + carry;
      carry := And64(s, 1);
      var r := (Join(rh, rl) - And64(d, s)) % TWO64;
      rh, rl := HighWord(r), LowWord(r);
      sr := sr - 1;
    }
    QuotientDone(n, d, sr0, Join(rh, rl), Join(qh, ql), carry, low);
    quot := (2 * Join(qh, ql) + carry) % TWO64;
    rem := Join(rh, rl);
  }

  lemma CarryBit(n: U64, d: U64, sr0: nat, sr: nat, r: U64, q: U64, carry: int, low: nat)
    requires Dividing(n, d, sr0, sr, r, q, carry, low)
    ensures 0 <= carry < 2 && r < d && r < 2 * d
  {
  }

  lemma QuotientDone(n: U64, d: U64, sr0: nat, r: U64, q: U64, carry: U32, low: nat)
    requires Dividing(n, d, sr0, 0, r, q, carry, low)
    ensures 2 * q + carry < TWO64 && n == (2 * q + carry) * d + r && r < d
  {
    hide Up, Pow2;
    Pow2Nought();
    HighNought(n);
    UpMul(0, 64);
    MulGrowsBy(2 * low + carry, d);
  }

  lemma MulGrowsBy(a: nat, d: nat)
    requires d >= 1
    ensures a * d >= a
  {
    assert a * (d - 1) >= 0;
    assert a * d == a * (d - 1) + a;
  }

  // The whole division.

  /** A number and its predecessor have no digit in common only if it is a power of two. */
  lemma {:induction false} PowerOfTwo(n: nat, d: nat, k: nat)
    requires 0 < d < Pow2(n) && Low(d, k) == 0 && High(d, k) % 2 == 1
    requires BitOp(And, n, d, d - 1) == 0
    ensures d == Pow2(k)
  {
    if d % 2 == 1 {
      assert k == 0;
      AndSelf(n - 1, d / 2);
    } else {
      assert k > 0;
      PowerOfTwo(n - 1, d / 2, k - 1);
    }
  }

  lemma {:induction false} AndSelf(n: nat, x: nat)
    requires x < Pow2(n)
    ensures BitOp(And, n, x, x) == x
  {
    if n > 0 {
      AndSelf(n - 1, x / 2);
    }
  }

  /** Division of a word by a power of two, with a mask and a shift. */
  lemma PowerDivision(d: U32, k: nat, x: U32)
    requires d > 0 && TrailingZeros(d, k) && And32(d, d - 1) == 0
    ensures d == Pow2(k) && And32(x, d - 1) == Low(x, k) && x == ShiftRight(x, k) * d + Low(x, k) && Low(x, k) < d
  {
    hide BitOp;
    Pow2Values();
    PowerOfTwo(32, d, k);
    AndMask(32, k, x);
    HighLow(x, k);
  }

  lemma DivideStart(n: U64, d: U64, sr: nat)
    requires 1 <= sr < 64 && High(n, sr) < d && (d > TWO64 / 2 ==> sr == 1 && n >= TWO64 / 2)
    requires Up(Low(n, sr), 64 - sr) < TWO64
    ensures Dividing(n, d, sr, sr, High(n, sr), Up(Low(n, sr), 64 - sr), 0, 0)
  {
    Pow2Nought();
  }

  /** Both high words are nonzero: a divisor with fewer leading zeros is larger than the
      dividend, and otherwise a shift by `sr` leaves less than the divisor. */
  lemma NormaliseHigh(nh: U32, nl: U32, dh: U32, dl: U32, cn: nat, cd: nat)
    requires LeadingZeros(nh, cn) && LeadingZeros(dh, cd)
    ensures cd < cn ==> Join(nh, nl) < Join(dh, dl)
    ensures cd >= cn ==> var sr := cd - cn + 1;
      && 1 <= sr <= 32 && High(Join(nh, nl), sr) < Join(dh, dl)
      && (Join(dh, dl) > TWO64 / 2 ==> sr == 1 && Join(nh, nl) >= TWO64 / 2)
  {
    hide High, Pow2;
    Pow2Values();
    Pow2Add(32 - cn, 32);
    Pow2Add(31 - cd, 32);
    PowerDouble(31);
    if cd >= cn {
      if cd > 0 {
        PowerGrows(32 - cd, 31);
      }
      Shifts.HighSmall(Join(nh, nl), 64 - cn, cd - cn + 1);
    } else {
      PowerGrows(32 - cn, 31 - cd);
    }
  }

  lemma DoubleWordBound(h: U32, l: U32, k: nat)
    requires h < Pow2(k)
    ensures Join(h, l) < Pow2(k + 32)
  {
    hide Pow2;
    Pow2Values();
    Pow2Add(k, 32);
    assert TWO32 * (h + 1) <= TWO32 * Pow2(k);
  }

  /** The divisor is a single word. */
  lemma NormaliseLow(nh: U32, nl: U32, dl: U32, cn: nat, cd: nat)
    requires LeadingZeros(nh, cn) && LeadingZeros(dl, cd) && dl > 1
    ensures 2 <= 33 + cd - cn < 64 && High(Join(nh, nl), 33 + cd - cn) < dl
  {
    hide High, Pow2;
    Pow2Values();
    Pow2One();
    Pow2Add(32 - cn, 32);
    DoubleWordBound(nh, nl, 32 - cn);
    Shifts.HighSmall(Join(nh, nl), 64 - cn, 33 + cd - cn);
  }

  /** The one number with 31 leading zeros passes the power-of-two test. */
  lemma NotOne(d: U32, c: nat)
    requires d > 0 && LeadingZeros(d, c)
    ensures c < 32 && (c == 31 <==> d == 1)
    ensures And32(1, 0) == 0
  {
    hide BitOp;
    assert Pow2(0) == 1;
    AndMask(32, 0, 1);
    if c < 31 {
      PowerGrows(1, 31 - c);
    }
  }

  lemma HighProduct(nh: U32, q: nat, dh: U32, r: nat, nl: U32)
    requires nh == q * dh + r && r < dh
    ensures Join(nh, nl) == q * Join(dh, 0) + Join(r, nl) && Join(r, nl) < Join(dh, 0)
  {
    assert q * (TWO32 * dh) == TWO32 * (q * dh);
  }

  lemma WordQuotient(x: U32, d: U32)
    requires d > 0
    ensures 0 <= x / d <= x && 0 <= x % d < d && x == (x / d) * d + x % d
  {
    var q := x / d;
    assert x == d * q + x % d && (-q) * d == -(q * d);
    if q < 0 {
      MulGrows(-q, d);
    } else {
      MulGrowsBy(q, d);
    }
  }

  lemma HighQuotient(nh: U32, dh: U32)
    requires dh > 0
    ensures 0 <= nh / dh <= nh && 0 <= nh % dh < TWO32
    ensures Join(nh, 0) == (nh / dh) * Join(dh, 0) + Join(nh % dh, 0) && Join(nh % dh, 0) < Join(dh, 0)
  {
    hide Join;
    WordQuotient(nh, dh);
    HighProduct(nh, nh / dh, dh, nh % dh, 0);
  }

  lemma WordByPower(nh: U32, nl: U32, dl: U32, k: nat)
    requires dl > 0 && TrailingZeros(dl, k) && And32(dl, dl - 1) == 0
    ensures dl == 1 ==> And32(nl, dl - 1) == 0
    ensures dl != 1 ==>
      && 0 < k < 32 && And32(nl, dl - 1) < dl
      && Join(nh, nl) == Join(ShiftRight(nh, k), Or32(ShiftLeft(nh, 32 - k), ShiftRight(nl, k))) * dl + And32(nl, dl - 1)
  {
    Pow2Nought();
    hide High, Low, Up, Pow2, Or32, ShiftLeft, And32;
    PowerDivision(dl, k, nl);
    if dl != 1 {
      ShortShift(nh, nl, k);
      HighLow(Join(nh, nl), k);
      LowOfJoin(nh, nl, k);
    }
  }

  /** The low word of the divisor is zero. */
  method DivideByHigh(nh: U32, nl: U32, dh: U32) returns (quot: U64, rem: U64)
    requires nh != 0 && dh != 0
    ensures Join(nh, nl) == quot * Join(dh, 0) + rem && rem < Join(dh, 0)
  {
    hide LeadingZeros, TrailingZeros, And32, Or32, ShiftLeft, ShiftRight, High, Low, Up, Pow2, Dividing, Join;
    if nl == 0 {
      HighQuotient(nh, dh);
      return nh / dh, Join(nh % dh, 0);
    }
    if And32(dh, dh - 1) == 0 {
      var k := Ctzsi2(dh);
      PowerDivision(dh, k, nh);
      HighProduct(nh, ShiftRight(nh, k), dh, And32(nh, dh - 1), nl);
      return ShiftRight(nh, k), Join(And32(nh, dh - 1), nl);
    }
    var cd := Clzsi2(dh);
    var cn := Clzsi2(nh);
    NormaliseHigh(nh, nl, dh, 0, cn, cd);
    NotOne(dh, cd);
    NotOne(nh, cn);
    var sr := (cd - cn) % TWO32;
    if sr > 30 {
      return 0, Join(nh, nl);
    }
    sr := sr + 1;
    ShortShift(nh, nl, sr);
    DivideStart(Join(nh, nl), Join(dh, 0), sr);
    quot, rem := DivideLoop(Join(nh, nl), Join(dh, 0), sr,
      ShiftRight(nh, sr), Or32(ShiftLeft(nh, 32 - sr), ShiftRight(nl, sr)), ShiftLeft(nl, 32 - sr), 0);
  }

  /** The high word of the divisor is zero. */
  method DivideByLow(nh: U32, nl: U32, dl: U32) returns (quot: U64, rem: U64)
    requires nh != 0 && dl != 0
    ensures Join(nh, nl) == quot * dl + rem && rem < dl
  {
    hide LeadingZeros, TrailingZeros, And32, Or32, ShiftLeft, ShiftRight, High, Low, Up, Pow2, Dividing, Join;
    if And32(dl, dl - 1) == 0 {
      var k := Ctzsi2(dl);
      WordByPower(nh, nl, dl, k);
      rem := And32(nl, dl - 1);
      if dl == 1 {
        return Join(nh, nl), rem;
      }
      return Join(ShiftRight(nh, k), Or32(ShiftLeft(nh, 32 - k), ShiftRight(nl, k))), rem;
    }
    var cd := Clzsi2(dl);
    var cn := Clzsi2(nh);
    NotOne(dl, cd);
    NormaliseLow(nh, nl, dl, cn, cd);
    var sr := 1 + 32 + cd - cn;
    var rh: U32, rl: U32, qh: U32, ql: U32;
    if sr == 32 {
      WordShift(nh, nl);
      ql, qh, rh, rl := 0, nl, 0, nh;
    } else if sr < 32 {
      ShortShift(nh, nl, sr);
      ql := 0;
      qh := ShiftLeft(nl, 32 - sr);
      rh := ShiftRight(nh, sr);
      rl := Or32(ShiftLeft(nh, 32 - sr), ShiftRight(nl, sr));
    } else {
      LongShift(nh, nl, sr);
      ql := ShiftLeft(nl, 64 - sr);
      qh := Or32(ShiftLeft(nh, 64 - sr), ShiftRight(nl, sr - 32));
      rh := 0;
      rl := ShiftRight(nh, sr - 32);
    }
    DivideStart(Join(nh, nl), dl, sr);
    quot, rem := DivideLoop(Join(nh, nl), dl, sr, rh, rl, qh, ql);
  }

  /** Neither word of the divisor is zero. */
  method DivideByBoth(nh: U32, nl: U32, dh: U32, dl: U32) returns (quot: U64, rem: U64)
    requires nh != 0 && dh != 0
    ensures Join(nh, nl) == quot * Join(dh, dl) + rem && rem < Join(dh, dl)
  {
    hide LeadingZeros, TrailingZeros, And32, Or32, ShiftLeft, ShiftRight, High, Low, Up, Pow2, Dividing, Join;
    var cd := Clzsi2(dh);
    var cn := Clzsi2(nh);
    NormaliseHigh(nh, nl, dh, dl, cn, cd);
    NotOne(dh, cd);
    NotOne(nh, cn);
    var sr := (cd - cn) % TWO32;
    if sr > 31 {
      return 0, Join(nh, nl);
    }
    sr := sr + 1;
    var rh: U32, rl: U32, qh: U32;
    if sr == 32 {
      WordShift(nh, nl);
      qh, rh, rl := nl, 0, nh;
    } else {
      ShortShift(nh, nl, sr);
      qh := ShiftLeft(nl, 32 - sr);
      rh := ShiftRight(nh, sr);
      rl := Or32(ShiftLeft(nh, 32 - sr), ShiftRight(nl, sr));
    }
    DivideStart(Join(nh, nl), Join(dh, dl), sr);
    quot, rem := DivideLoop(Join(nh, nl), Join(dh, dl), sr, rh, rl, qh, 0);
  }

  /** Unsigned division, case by case on which words are zero. */
  method UdivModDi4(a: U64, b: U64) returns (quot: U64, rem: U64)
    requires b != 0
    ensures a == quot * b + rem && rem < b
  {
    var nh, nl, dh, dl := HighWord(a), LowWord(a), HighWord(b), LowWord(b);
    assert a == Join(nh, nl) && b == Join(dh, dl);
    if nh == 0 {
      if dh == 0 {
        WordQuotient(nl, dl);
        return nl / dl, nl % dl;
      }
      return 0, nl;
    }
    if dl == 0 {
      quot, rem := DivideByHigh(nh, nl, dh);
    } else if dh == 0 {
      quot, rem := DivideByLow(nh, nl, dl);
    } else {
      quot, rem := DivideByBoth(nh, nl, dh, dl);
    }
  }

  // Signed division.

  type S64 = x: int | -0x8000_0000_0000_0000 <= x < 0x8000_0000_0000_0000

  function AsUnsigned(x: S64): U64
  {
    x % TWO64
  }

  function AsSigned(x: U64): S64
  {
    if x < TWO64 / 2 then x else x - TWO64
  }

  function Xor64(a: U64, b: U64): U64
  {
    Pow2SixtyFour();
    BitOp(Xor, 64, a, b)
  }

  /** Exclusive or with a sign mask, then minus the mask: the two's complement where the
      mask is set. */
  function NegateBy(x: U64, mask: U64): U64
  {
    (Xor64(x, mask) - mask) % TWO64
  }

  lemma {:induction false} XorZero(n: nat, a: nat)
    ensures BitOp(Xor, n, a, 0) == Low(a, n)
  {
    if n > 0 {
      XorZero(n - 1, a / 2);
    }
  }

  lemma {:induction false} XorSwap(n: nat, a: nat, b: nat)
    ensures BitOp(Xor, n, a, b) == BitOp(Xor, n, b, a)
  {
    if n > 0 {
      XorSwap(n - 1, a / 2, b / 2);
    }
  }

  lemma NegateByMask(x: U64, m: U64)
    ensures NegateBy(x, SignMask(m)) == if m < TWO64 / 2 then x else if x == 0 then 0 else TWO64 - x
  {
    hide BitOp, Low, Pow2;
    Pow2SixtyFour();
    Shifts.LowSmall(x, 64);
    XorZero(64, x);
    XorOnes(64, x);
    XorSwap(64, x, TWO64 - 1);
  }

  lemma SignsXor(x: U64, y: U64)
    ensures Xor64(SignMask(x), SignMask(y)) == if (x >= TWO64 / 2) != (y >= TWO64 / 2) then TWO64 - 1 else 0
  {
    hide BitOp, Low, Pow2;
    Pow2SixtyFour();
    Shifts.LowSmall(0, 64);
    Shifts.LowSmall(TWO64 - 1, 64);
    XorZero(64, 0);
    XorZero(64, TWO64 - 1);
    XorOnes(64, TWO64 - 1);
    XorSwap(64, 0, TWO64 - 1);
  }

  function Abs(x: int): nat
  {
    if x < 0 then -x else x
  }

  lemma AbsoluteBits(x: S64)
    ensures NegateBy(AsUnsigned(x), SignMask(AsUnsigned(x))) == Abs(x)
    ensures AsUnsigned(x) >= TWO64 / 2 <==> x < 0
  {
    hide NegateBy, SignMask;
    NegateByMask(AsUnsigned(x), AsUnsigned(x));
  }

  /** `q` and `r` are quotient and remainder of division rounded towards zero: the
      remainder is smaller than the divisor and has the dividend's sign. */
  predicate Truncated(a: int, b: int, q: int, r: int)
  {
    a == q * b + r && Abs(r) < Abs(b) && (r == 0 || (r < 0 <==> a < 0))
  }

  /** That fixes both numbers. */
  lemma TruncatedUnique(a: int, b: int, q: int, r: int, q': int, r': int)
    requires b != 0 && Truncated(a, b, q, r) && Truncated(a, b, q', r')
    ensures q == q' && r == r'
  {
    hide Abs;
    Spread(q, q', b);
    Near(a, b, r, r');
    SmallMultiple(q - q', b);
  }

  lemma Near(a: int, b: int, r: int, r': int)
    requires Abs(r) < Abs(b) && (r == 0 || (r < 0 <==> a < 0)) && Abs(r') < Abs(b) && (r' == 0 || (r' < 0 <==> a < 0))
    ensures -(Abs(b) as int) < r' - r < Abs(b)
  {
  }

  lemma SmallMultiple(e: int, b: int)
    requires -(Abs(b) as int) < e * b < Abs(b)
    ensures e == 0
  {
    if e != 0 {
      SignsOut(e, b);
      MulGrows(Abs(e), Abs(b));
    }
  }

  lemma Spread(x: int, y: int, z: int)
    ensures (x - y) * z == x * z - y * z
  {
  }

  lemma SignsOut(x: int, y: int)
    ensures Abs(x * y) == Abs(x) * Abs(y)
  {
    if x < 0 {
      assert (-x) * y == -(x * y);
      assert (-x) * (-y) == x * y;
    } else {
      assert x * (-y) == -(x * y);
    }
    if x >= 0 && y >= 0 {
      assert x * y >= 0;
    } else if x < 0 && y < 0 {
      assert (-x) * (-y) >= 0;
    } else if x < 0 {
      assert (-x) * y >= 0;
    } else {
      assert x * (-y) >= 0;
    }
  }

  /** Division with signs put back on the quotient of the absolute values. The one
      quotient that does not fit wraps around. */
  method DivDi3(a: S64, b: S64) returns (q: S64)
    requires b != 0
    ensures a == -TWO64 / 2 && b == -1 ==> q == -TWO64 / 2
    ensures !(a == -TWO64 / 2 && b == -1) ==> Truncated(a, b, q, a as int - q * b)
  {
    hide NegateBy, SignMask, Xor64, Truncated, Abs;
    var sa, sb := SignMask(AsUnsigned(a)), SignMask(AsUnsigned(b));
    AbsoluteBits(a);
    AbsoluteBits(b);
    AbsoluteNonZero(b);
    var ua, ub := NegateBy(AsUnsigned(a), sa), NegateBy(AsUnsigned(b), sb);
    SignsXor(AsUnsigned(a), AsUnsigned(b));
    sa := Xor64(sa, sb);
    var uq, ur := UdivModDi4(ua, ub);
    QuotientBits(uq, (a < 0) != (b < 0));
    q := AsSigned(NegateBy(uq, sa));
    SignedQuotient(a, b, uq, ur);
  }

  lemma AbsoluteNonZero(b: int)
    requires b != 0
    ensures Abs(b) != 0
  {
  }

  /** The sign put back: exact unless 2^63 stays positive. */
  lemma QuotientBits(uq: U64, negative: bool)
    ensures var q := AsSigned(NegateBy(uq, if negative then TWO64 - 1 else 0));
      && (uq <= TWO64 / 2 && negative ==> q == -(uq as int))
      && (uq < TWO64 / 2 && !negative ==> q == uq)
      && (uq == TWO64 / 2 ==> q == -TWO64 / 2)
  {
    hide NegateBy;
    var m: U64 := if negative then TWO64 - 1 else 0;
    NegateByMask(uq, m);
    MaskItself(m);
  }

  lemma MaskItself(m: U64)
    requires m == 0 || m == TWO64 - 1
    ensures SignMask(m) == m
  {
  }

  /** From the absolute values to the truncated quotient. */
  lemma SignedQuotient(a: S64, b: S64, uq: U64, ur: U64)
    requires b != 0 && Abs(a) == uq * Abs(b) + ur && ur < Abs(b)
    ensures var q: int := if (a < 0) != (b < 0) then -(uq as int) else uq;
      && Truncated(a, b, q, a as int - q * b)
      && a as int - q * b == (if a < 0 then -(ur as int) else ur)
      && uq <= TWO64 / 2
      && (uq == TWO64 / 2 && (a < 0) == (b < 0) <==> a == -TWO64 / 2 && b == -1)
  {
    MulGrowsBy(uq, Abs(b));
    SignedProduct(uq, b, (a < 0) != (b < 0));
    if uq == TWO64 / 2 && Abs(b) > 1 {
      assert uq * Abs(b) >= uq * 2 by {
        MulMonotone(uq, 2, Abs(b));
      }
    }
  }

  lemma SignedProduct(u: nat, b: int, negative: bool)
    ensures (if negative then -(u as int) else u as int) * b == if negative != (b < 0) then -(u * Abs(b)) else u * Abs(b)
  {
  }

  lemma MulMonotone(u: nat, x: nat, y: nat)
    requires x <= y
    ensures u * x <= u * y
  {
    assert u * (y - x) >= 0;
    assert u * (y - x) == u * y - u * x;
  }

  method ModDi3(a: S64, b: S64) returns (r: S64)
    requires b != 0
    ensures exists q :: Truncated(a, b, q, r)
  {
    hide NegateBy, SignMask;
    AbsoluteBits(a);
    AbsoluteBits(b);
    var ub := NegateBy(AsUnsigned(b), SignMask(AsUnsigned(b)));
    var s := SignMask(AsUnsigned(a));
    var ua := NegateBy(AsUnsigned(a), s);
    var uq, ur := UdivModDi4(ua, ub);
    NegateByMask(ur, AsUnsigned(a));
    r := AsSigned(NegateBy(ur, s));
    SignedQuotient(a, b, uq, ur);
    assert Truncated(a, b, if (a < 0) != (b < 0) then -(uq as int) else uq, r);
  }

  method DivModDi4(a: S64, b: S64) returns (d: S64, rem: S64)
    requires b != 0
    ensures !(a == -TWO64 / 2 && b == -1) ==> Truncated(a, b, d, rem)
    ensures a == -TWO64 / 2 && b == -1 ==> d == -TWO64 / 2 && rem == 0
  {
    hide Truncated;
    d := DivDi3(a, b);
    var product: int := d as int * b as int;
    rem := AsSigned((a - product) % TWO64);
    if !(a == -TWO64 / 2 && b == -1) {
      RemainderFits(a, b, d, a - product);
    }
  }

  lemma RemainderFits(a: S64, b: S64, q: int, r: int)
    requires Truncated(a, b, q, r)
    ensures AsSigned(r % TWO64) == r
  {
  }

  // Leading and trailing zeros of a double word.

  lemma {:induction false} OrZeroLeft(n: nat, a: nat)
    requires a < Pow2(n)
    ensures BitOp(Or, n, 0, a) == a
  {
    if n > 0 {
      OrZeroLeft(n - 1, a / 2);
    }
  }

  /** A word chosen by a mask and its complement. */
  lemma SelectWord(x: U32, y: U32, b: bool)
    ensures Or32(And32(x, MaskOf(b)), And32(y, TWO32 - 1 - MaskOf(b))) == if b then x else y
    ensures Or32(And32(x, TWO32 - 1 - MaskOf(b)), And32(y, MaskOf(b))) == if b then y else x
  {
    hide BitOp, And32;
    Pow2Values();
    AndMaskOf(x, b);
    AndMaskOf(y, b);
    AndMaskOf(x, !b);
    AndMaskOf(y, !b);
    OrZero(32, x);
    OrZero(32, y);
    OrZeroLeft(32, x);
    OrZeroLeft(32, y);
  }

  method Clzdi2(a: U64) returns (r: nat)
    requires a != 0
    ensures r < 64 && Pow2(63 - r) <= a < Pow2(64 - r)
  {
    hide And32, Or32, Pow2, MaskOf;
    var h, l := HighWord(a), LowWord(a);
    var f := MaskOf(h == 0);
    SelectWord(h, l, h == 0);
    var c := Clzsi2(Or32(And32(h, TWO32 - 1 - f), And32(l, f)));
    AndMaskOf(32, h == 0);
    r := c + And32(f, 32);
    Pow2Values();
    Pow2Add(31 - c, 32);
    Pow2Add(32 - c, 32);
  }

  method Ctzdi2(a: U64) returns (r: nat)
    requires a != 0
    ensures r < 64 && Low(a, r) == 0 && High(a, r) % 2 == 1
  {
    hide And32, Or32, MaskOf, High, Low;
    var h, l := HighWord(a), LowWord(a);
    var f := MaskOf(l == 0);
    SelectWord(h, l, l == 0);
    var c := Ctzsi2(Or32(And32(h, f), And32(l, TWO32 - 1 - f)));
    AndMaskOf(32, l == 0);
    r := c + And32(f, 32);
    JoinDigits(h, l, c);
  }

  /** The digits of a double word, above the low word and within it. */
  lemma JoinDigits(h: U32, l: U32, c: nat)
    requires c < 32
    ensures l == 0 ==> Low(Join(h, l), c + 32) == Up(Low(h, c), 32) && High(Join(h, l), c + 32) == High(h, c)
    ensures Low(Join(h, l), c) == Low(l, c) && High(Join(h, l), c) % 2 == High(l, c) % 2
    ensures Low(h, c) == 0 ==> Up(Low(h, c), 32) == 0
  {
    hide High, Low, Pow2;
    WordShift(h, l);
    LowOfJoin(h, l, 32);
    LowOfJoin(h, l, c);
    LowOfJoin(h, l, c + 1);
    LowHigh(Join(h, l), 32, c);
    Shifts.HighAdd(Join(h, l), 32, c);
    Pow2Values();
    Shifts.LowSmall(l, 32);
    DigitAt(Join(h, l), c);
    DigitAt(l, c);
    UpMul(0, 32);
  }

  /** Digit `c` is what `c + 1` low digits have and `c` have not. */
  lemma DigitAt(x: nat, c: nat)
    ensures Low(x, c + 1) == Low(x, c) + Pow2(c) * (High(x, c) % 2)
  {
    LowHigh(x, c, 1);
    TwoDigits(High(x, c));
    UpMul(High(x, c) % 2, c);
  }
}
