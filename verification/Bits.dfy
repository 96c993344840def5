/** Bitwise operations on natural numbers, binary digit by binary digit. */
module Bits {

  function Pow2(n: nat): (r: nat)
    ensures r >= 1
  {
    if n == 0 then 1 else 2 * Pow2(n - 1)
  }

  /** `a` moved up by `n` digits. */
  function Up(a: nat, n: nat): nat
  {
    if n == 0 then a else 2 * Up(a, n - 1)
  }

  /** `a` without its low `n` digits. */
  function High(a: nat, n: nat): nat
  {
    if n == 0 then a else High(a / 2, n - 1)
  }

  /** The low `n` digits of `a`. */
  function Low(a: nat, n: nat): (r: nat)
    ensures r < Pow2(n)
  {
    if n == 0 then 0 else a % 2 + 2 * Low(a / 2, n - 1)
  }

  datatype Op = And | Or | Xor

  function Bit(op: Op, a: nat, b: nat): nat
  {
    match op
    case And => if a == 1 && b == 1 then 1 else 0
    case Or => if a == 1 || b == 1 then 1 else 0
    case Xor => if a != b then 1 else 0
  }

  /** The operation `op` on the low `n` binary digits of `a` and `b`. */
  function BitOp(op: Op, n: nat, a: nat, b: nat): (r: nat)
    ensures r < Pow2(n)
  {
    if n == 0 then 0
    else Bit(op, a % 2, b % 2) + 2 * BitOp(op, n - 1, a / 2, b / 2)
  }

  lemma MulGrows(a: int, d: int)
    requires a >= 1 && d >= 0
    ensures a * d >= d
  {
    assert (a - 1) * d >= 0;
    assert a * d == (a - 1) * d + d;
  }

  lemma DivModUnique(x: int, d: int, q: int, r: int)
    requires 0 <= r < d && x == q * d + r
    ensures x / d == q && x % d == r
  {
    var q', r' := x / d, x % d;
    assert x == d * q' + r';
    assert (q' - q) * d == q' * d - q * d && (q - q') * d == q * d - q' * d;
    if q' > q {
      MulGrows(q' - q, d);
    } else if q' < q {
      MulGrows(q - q', d);
    }
  }

  lemma TwiceProduct(h: nat, p: nat)
    ensures h * (2 * p) == 2 * (h * p)
  {
  }

  lemma {:induction false} UpMul(a: nat, n: nat)
    ensures Up(a, n) == a * Pow2(n)
  {
    if n > 0 {
      UpMul(a, n - 1);
      TwiceProduct(a, Pow2(n - 1));
    }
  }

  lemma Pow2Add(m: nat, n: nat)
    ensures Pow2(m + n) == Pow2(m) * Pow2(n)
  {
    if m > 0 {
      Pow2Add(m - 1, n);
    }
  }

  lemma Pow2Values()
    ensures Pow2(5) == 0x20 && Pow2(8) == 0x100 && Pow2(16) == 0x1_0000
    ensures Pow2(24) == 0x100_0000 && Pow2(32) == 0x1_0000_0000
  {
    hide *;
    Pow2Small();
    Pow2Add(8, 8);
    Pow2Add(8, 16);
    Pow2Add(16, 16);
  }

  lemma Pow2Small()
    ensures Pow2(5) == 0x20 && Pow2(8) == 0x100
  {
  }

  // One digit and the rest.

  lemma Digit(d: nat, r: nat)
    requires d < 2
    ensures (d + 2 * r) % 2 == d && (d + 2 * r) / 2 == r
  {
  }

  lemma LowDigits(a: nat, n: nat)
    requires n > 0
    ensures Low(a, n) % 2 == a % 2 && Low(a, n) / 2 == Low(a / 2, n - 1)
  {
    Digit(a % 2, Low(a / 2, n - 1));
  }

  lemma OnesDigits(k: nat)
    requires k > 0
    ensures (Pow2(k) - 1) % 2 == 1 && (Pow2(k) - 1) / 2 == Pow2(k - 1) - 1
  {
    Digit(1, Pow2(k - 1) - 1);
  }

  lemma {:induction false} HighLowSum(a: nat, n: nat)
    ensures a == High(a, n) * Pow2(n) + Low(a, n)
  {
    if n > 0 {
      HighLowSum(a / 2, n - 1);
      TwiceProduct(High(a, n), Pow2(n - 1));
    }
  }

  /** Cutting digits off is dividing by a power of two. */
  lemma HighLow(a: nat, n: nat)
    ensures a == High(a, n) * Pow2(n) + Low(a, n)
    ensures High(a, n) == a / Pow2(n) && Low(a, n) == a % Pow2(n)
  {
    hide High, Low, Pow2;
    HighLowSum(a, n);
    DivModUnique(a, Pow2(n), High(a, n), Low(a, n));
  }

  /** Digits from the `n`-th on do not matter. */
  lemma {:induction false} BitOpLow(op: Op, n: nat, a: nat, b: nat)
    ensures BitOp(op, n, Low(a, n), Low(b, n)) == BitOp(op, n, a, b)
  {
    hide Low, Bit;
    if n > 0 {
      LowDigits(a, n);
      LowDigits(b, n);
      BitOpLow(op, n - 1, a / 2, b / 2);
    }
  }

  /** An operation on `m + n` digits is the one on the low `m` digits beside the one
      on the next `n`. */
  lemma {:induction false} BitOpSplit(op: Op, m: nat, n: nat, a: nat, b: nat)
    ensures BitOp(op, m + n, a, b) == BitOp(op, m, a, b) + Up(BitOp(op, n, High(a, m), High(b, m)), m)
  {
    if m > 0 {
      BitOpSplit(op, m - 1, n, a / 2, b / 2);
    }
  }

  lemma {:induction false} AndZero(n: nat, a: nat)
    ensures BitOp(And, n, 0, a) == 0 && BitOp(And, n, a, 0) == 0
  {
    if n > 0 {
      AndZero(n - 1, a / 2);
    }
  }

  /** Masking with `k` ones keeps the low `k` digits. */
  lemma {:induction false} AndMask(n: nat, k: nat, a: nat)
    requires k <= n
    ensures BitOp(And, n, Pow2(k) - 1, a) == Low(a, k)
    ensures BitOp(And, n, a, Pow2(k) - 1) == Low(a, k)
  {
    hide Pow2;
    if k > 0 {
      AndMask(n - 1, k - 1, a / 2);
      OnesDigits(k);
    } else {
      Pow2Zero();
      AndZero(n, a);
    }
  }

  lemma Pow2Zero()
    ensures Pow2(0) == 1
  {
  }

  /** Exclusive or with `n` ones is the complement. */
  lemma {:induction false} XorOnes(n: nat, a: nat)
    ensures BitOp(Xor, n, Pow2(n) - 1, a) == Pow2(n) - 1 - Low(a, n)
  {
    if n > 0 {
      XorOnes(n - 1, a / 2);
      OnesDigits(n);
    }
  }

  lemma {:induction false} OrZero(n: nat, a: nat)
    requires a < Pow2(n)
    ensures BitOp(Or, n, a, 0) == a
  {
    if n > 0 {
      OrZero(n - 1, a / 2);
    }
  }

  /** Or of numbers whose digits do not overlap is their sum. */
  lemma {:induction false} OrDisjoint(n: nat, k: nat, a: nat, b: nat)
    requires k <= n && b < Pow2(k) && Up(a, k) < Pow2(n)
    ensures BitOp(Or, n, Up(a, k), b) == Up(a, k) + b
  {
    if k > 0 {
      OrDisjoint(n - 1, k - 1, a, b / 2);
    } else {
      OrZero(n, a);
    }
  }

  // What the operations do, digit by digit and as sums.

  /** Digit `k` of a number. */
  function DigitAt(a: nat, k: nat): (d: nat)
    ensures d < 2
  {
    if k == 0 then a % 2 else DigitAt(a / 2, k - 1)
  }

  /** A digit of the result is one where both, one at least, or exactly one of the operands'
      digits is. */
  lemma {:induction false} DigitOf(n: nat, a: nat, b: nat, k: nat)
    requires k < n
    ensures DigitAt(BitOp(And, n, a, b), k) == 1 <==> DigitAt(a, k) == 1 && DigitAt(b, k) == 1
    ensures DigitAt(BitOp(Or, n, a, b), k) == 1 <==> DigitAt(a, k) == 1 || DigitAt(b, k) == 1
    ensures DigitAt(BitOp(Xor, n, a, b), k) == 1 <==> DigitAt(a, k) != DigitAt(b, k)
  {
    BitOpFirst(And, n, a, b);
    BitOpFirst(Or, n, a, b);
    BitOpFirst(Xor, n, a, b);
    hide BitOp;
    if k > 0 {
      hide Bit;
      DigitOf(n - 1, a / 2, b / 2, k - 1);
    }
  }

  lemma BitOpFirst(op: Op, n: nat, a: nat, b: nat)
    requires n > 0
    ensures BitOp(op, n, a, b) % 2 == Bit(op, a % 2, b % 2)
    ensures BitOp(op, n, a, b) / 2 == BitOp(op, n - 1, a / 2, b / 2)
  {
    Digit(Bit(op, a % 2, b % 2), BitOp(op, n - 1, a / 2, b / 2));
  }

  /** Or and and share out the digits of the operands, and exclusive or leaves out twice those
      they have in common. */
  lemma {:induction false} DigitSums(n: nat, a: nat, b: nat)
    ensures BitOp(Or, n, a, b) + BitOp(And, n, a, b) == Low(a, n) + Low(b, n)
    ensures BitOp(Xor, n, a, b) + 2 * BitOp(And, n, a, b) == Low(a, n) + Low(b, n)
  {
    hide Bit;
    if n > 0 {
      DigitSums(n - 1, a / 2, b / 2);
      BitSums(a % 2, b % 2);
    }
  }

  lemma BitSums(x: nat, y: nat)
    requires x < 2 && y < 2
    ensures Bit(Or, x, y) + Bit(And, x, y) == x + y && Bit(Xor, x, y) + 2 * Bit(And, x, y) == x + y
  {
  }

  lemma {:induction false} DigitSame(n: nat, a: nat)
    ensures BitOp(And, n, a, a) == Low(a, n) && BitOp(Or, n, a, a) == Low(a, n) && BitOp(Xor, n, a, a) == 0
  {
    if n > 0 {
      DigitSame(n - 1, a / 2);
    }
  }

  lemma {:induction false} DigitHigh(a: nat, k: nat)
    ensures DigitAt(a, k) == High(a, k) % 2
  {
    if k > 0 {
      DigitHigh(a / 2, k - 1);
    }
  }
}
