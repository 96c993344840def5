/** Shifts of 32-bit words put together from shifts of their bytes. */
module Shifts {
  import opened Basics
  import opened Bits
  import opened RvMachine

  function Sll(x: Word, n: nat): Word
  {
    x * Pow2(n) % WORDS
  }

  function Srl(x: Word, n: nat): Word
  {
    HighBound(x, n);
    HighLow(x, n);
    x / Pow2(n)
  }

  function Signed(x: Word): int
  {
    if x < 0x8000_0000 then x else x - WORDS
  }

  /** Arithmetic shift: division of the signed value, rounded down. */
  function Sra(x: Word, n: nat): Word
  {
    Signed(x) / Pow2(n) % WORDS
  }

  lemma {:induction false} HighBound(a: nat, n: nat)
    ensures High(a, n) <= a
  {
    if n > 0 {
      HighBound(a / 2, n - 1);
    }
  }

  lemma {:induction false} HighAdd(a: nat, m: nat, n: nat)
    ensures High(High(a, m), n) == High(a, m + n)
  {
    if m > 0 {
      HighAdd(a / 2, m - 1, n);
    }
  }

  lemma {:induction false} HighSplit(u: nat, k: nat, v: nat, n: nat)
    requires v < Pow2(k)
    ensures High(Up(u, k) + v, n) == High(Up(u, k), n) + High(v, n)
  {
    if n > 0 && k > 0 {
      HighSplit(u, k - 1, v / 2, n - 1);
    } else if n > 0 {
      HighZero(n);
    }
  }

  lemma {:induction false} HighZero(n: nat)
    ensures High(0, n) == 0
  {
    if n > 0 {
      HighZero(n - 1);
    }
  }

  lemma {:induction false} HighSmall(v: nat, k: nat, n: nat)
    requires v < Pow2(k)
    ensures n <= k ==> High(v, n) < Pow2(k - n)
    ensures n >= k ==> High(v, n) == 0
  {
    if n > 0 && k > 0 {
      HighSmall(v / 2, k - 1, n - 1);
    } else if n > 0 {
      HighZero(n);
    }
  }

  lemma {:induction false} HighUp(u: nat, k: nat, n: nat)
    ensures n <= k ==> High(Up(u, k), n) == Up(u, k - n)
    ensures n >= k ==> High(Up(u, k), n) == High(u, n - k)
  {
    if n > 0 && k > 0 {
      HighUp(u, k - 1, n - 1);
    }
  }

  lemma {:induction false} HighComplement(w: nat, k: nat, n: nat)
    requires w < Pow2(k)
    ensures High(Pow2(k) - 1 - w, n) == High(Pow2(k) - 1, n) - High(w, n)
  {
    if n > 0 && k > 0 {
      HighComplement(w / 2, k - 1, n - 1);
    } else if n > 0 {
      HighZero(n);
    }
  }

  lemma {:induction false} LowUp(u: nat, k: nat, j: nat)
    ensures Low(Up(u, k), k + j) == Up(Low(u, j), k)
    ensures Low(Up(u, k), k + j) + Pow2(k) <= Pow2(k + j)
  {
    if k > 0 {
      LowUp(u, k - 1, j);
    }
  }

  lemma {:induction false} LowUpZero(u: nat, k: nat, j: nat)
    requires j <= k
    ensures Low(Up(u, k), j) == 0
  {
    if j > 0 {
      LowUpZero(u, k - 1, j - 1);
    }
  }

  lemma {:induction false} LowSmall(v: nat, k: nat)
    requires v < Pow2(k)
    ensures Low(v, k) == v
  {
    if k > 0 {
      LowSmall(v / 2, k - 1);
    }
  }

  lemma NextByte(v: nat, m: nat)
    ensures Low(High(v, m), 8) == High(v, m) % 0x100 && High(v, m + 8) == High(v, m) / 0x100
  {
    hide High, Low, Pow2;
    Pow2Eight();
    HighLow(High(v, m), 8);
    HighAdd(v, m, 8);
  }

  lemma HighNone(v: nat)
    ensures High(v, 0) == v
  {
  }

  /** The numbers that the bytes of a word end. */
  lemma HighBytes(v: Word)
    ensures High(v, 0) == v && High(v, 8) == v / 0x100 && High(v, 16) == v / 0x100 / 0x100
    ensures High(v, 24) == v / 0x100 / 0x100 / 0x100 == High(v, 24) % 0x100
  {
    HighNone(v);
    hide High;
    NextByte(v, 0);
    NextByte(v, 8);
    NextByte(v, 16);
  }

  lemma LastDigits(h: nat)
    ensures Low(h, 8) == h % 0x100
  {
    HighNone(h);
    NextByte(h, 0);
  }

  lemma ByteDigits(v: Word, k: int)
    requires 0 <= k < 4
    ensures ByteOf(v, k) == Low(High(v, 8 * k), 8)
  {
    hide High, Low;
    HighBytes(v);
    LastDigits(High(v, 8 * k));
  }

  lemma Pow2Eight()
    ensures Pow2(8) == 0x100
  {
  }

  /** The table entry for a right shift: byte `u` placed on top of a word, shifted by `n`. */
  function Piece(u: Byte, n: nat): Word
  {
    Pow2Values();
    UpMul(u, 24);
    HighBound(Up(u, 24), n);
    High(Up(u, 24), n)
  }

  /** Byte `k` of a piece: the digits of `u` moved by `8 * (3 - k) - n` places, cut to a byte. */
  lemma PieceByte(u: Byte, n: nat, k: int)
    requires 0 <= k < 4
    ensures n + 8 * k <= 24 ==> ByteOf(Piece(u, n), k) == Low(Up(u, 24 - n - 8 * k), 8)
    ensures n + 8 * k >= 24 ==> ByteOf(Piece(u, n), k) == High(u, n + 8 * k - 24)
  {
    ByteDigits(Piece(u, n), k);
    HighAdd(Up(u, 24), n, 8 * k);
    HighUp(u, 24, n + 8 * k);
    if n + 8 * k >= 24 {
      Pow2Eight();
      HighBound(u, n + 8 * k - 24);
      LowSmall(High(u, n + 8 * k - 24), 8);
    }
  }

  /** The part of a byte that leaves it to the left by `8 - n` and the next byte shifted
      right by `n` share no digit. */
  lemma NoOverlap(u: Byte, v: Byte, n: nat)
    ensures n <= 8 ==> Low(Up(u, 8 - n), 8) + High(v, n) < 0x100
    ensures n >= 8 ==> High(u, n - 8) + High(v, n) < 0x100
  {
    Pow2Eight();
    HighSmall(v, 8, n);
    if n <= 8 {
      LowUp(u, 8 - n, n);
    } else {
      HighBound(u, n - 8);
    }
  }

  /** Byte additions that assemble the shifted word never carry. */
  lemma NoCarry(x2: Byte, x1: Byte, x0: Byte, n: nat)
    requires n < 32
    ensures ByteOf(Piece(x2, n), 1) + ByteOf(Piece(x1, n), 2) + ByteOf(Piece(x0, n), 3) < 0x100
    ensures ByteOf(Piece(x2, n), 2) + ByteOf(Piece(x1, n), 3) < 0x100
  {
    hide Up, High, Low, ByteOf, Piece;
    PieceByte(x2, n, 1);
    PieceByte(x2, n, 2);
    PieceByte(x1, n, 2);
    PieceByte(x1, n, 3);
    PieceByte(x0, n, 3);
    NoOverlap(x2, x1, n);
    Pow2Eight();
    if n <= 8 {
      LowUpZero(x2, 16 - n, 8);
      NoOverlap(x1, x0, n);
    } else {
      HighSmall(x0, 8, n);
      NoOverlap(x2, x1, n - 8);
    }
  }

  /** What the expansion adds to the shifted top byte: bytes 2, 1 and 0 of the result,
      gathered from the pieces of the three lower bytes. */
  function Gathered(x2: Byte, x1: Byte, x0: Byte, n: nat): Word
    requires n < 32
  {
    NoCarry(x2, x1, x0, n);
    Pack(ByteOf(Piece(x2, n), 1) + ByteOf(Piece(x1, n), 2) + ByteOf(Piece(x0, n), 3),
         ByteOf(Piece(x2, n), 2) + ByteOf(Piece(x1, n), 3),
         ByteOf(Piece(x2, n), 3),
         0)
  }

  lemma GatheredParts(x2: Byte, x1: Byte, x0: Byte, n: nat)
    requires n < 32
    ensures Gathered(x2, x1, x0, n) == High(Piece(x2, n), 8) + High(Piece(x1, n), 16) + High(Piece(x0, n), 24)
  {
    hide Piece, High, Pow2;
    Pow2Values();
    var y2, y1, y0 := Piece(x2, n), Piece(x1, n), Piece(x0, n);
    HighLow(y2, 8);
    HighLow(y1, 16);
    HighLow(y0, 24);
    TopBytes(y2);
    TopBytes(y1);
    TopBytes(y0);
  }

  lemma TopBytes(y: Word)
    ensures y / 0x100 == ByteOf(y, 1) + 0x100 * ByteOf(y, 2) + 0x1_0000 * ByteOf(y, 3)
    ensures y / 0x1_0000 == ByteOf(y, 2) + 0x100 * ByteOf(y, 3)
    ensures y / 0x100_0000 == ByteOf(y, 3)
  {
    PackBytes(y);
  }

  /** The three lower bytes shifted right, as one number. */
  lemma GatheredHigh(x2: Byte, x1: Byte, x0: Byte, n: nat)
    requires n < 32
    ensures Gathered(x2, x1, x0, n) == High(0x1_0000 * x2 + 0x100 * x1 + x0, n)
  {
    hide Piece, High, Pow2, Up, Gathered;
    Pow2Values();
    GatheredParts(x2, x1, x0, n);
    PieceHigh(x2, n, 8);
    PieceHigh(x1, n, 16);
    PieceHigh(x0, n, 24);
    UpMul(x2, 16);
    UpMul(x1, 8);
    UpMul(x0, 0);
    Pow2Zero();
    HighSplit(x2, 16, 0x100 * x1 + x0, n);
    HighSplit(x1, 8, x0, n);
  }

  lemma PieceHigh(u: Byte, n: nat, k: nat)
    requires k <= 24
    ensures High(Piece(u, n), k) == High(Up(u, 24 - k), n)
  {
    HighAdd(Up(u, 24), n, k);
    HighAdd(Up(u, 24), k, n);
    HighUp(u, 24, k);
  }

  /** The pieces of the four bytes of a word add up to the word shifted right. */
  lemma SrlPieces(x3: Byte, x2: Byte, x1: Byte, x0: Byte, n: nat)
    requires n < 32
    ensures Piece(x3, n) + Gathered(x2, x1, x0, n) == Srl(Pack(x0, x1, x2, x3), n)
  {
    hide High, Pow2, Up, Gathered;
    Pow2Values();
    GatheredHigh(x2, x1, x0, n);
    UpMul(x3, 24);
    HighSplit(x3, 24, 0x1_0000 * x2 + 0x100 * x1 + x0, n);
    HighLow(Pack(x0, x1, x2, x3), n);
  }

  /** An arithmetic shift fills with ones what a logical shift of the complement fills
      with zeros. */
  lemma SraComplement(x: Word, n: nat)
    ensures Sra(x, n) == if x < 0x8000_0000 then High(x, n) else WORDS - 1 - High(WORDS - 1 - x, n)
  {
    hide High, Pow2;
    HighDiv(x, n);
    HighBound(x, n);
    if x >= 0x8000_0000 {
      HighDiv(WORDS - 1 - x, n);
      HighBound(WORDS - 1 - x, n);
      FloorOfComplement(WORDS - 1 - x, Pow2(n));
      WrapComplement(High(WORDS - 1 - x, n));
    } else {
      WrapSmall(High(x, n));
    }
  }

  lemma HighDiv(x: nat, n: nat)
    ensures High(x, n) == x / Pow2(n)
  {
    hide High, Pow2;
    HighLow(x, n);
  }

  lemma WrapComplement(q: Word)
    ensures (-1 - q) % WORDS == WORDS - 1 - q
  {
  }

  lemma WrapSmall(q: Word)
    ensures q % WORDS == q
  {
  }

  lemma FloorOfComplement(c: int, p: int)
    requires c >= 0 && p >= 1
    ensures (-1 - c) / p == -1 - c / p
  {
    var q, r := c / p, c % p;
    assert c == p * q + r;
    assert (-1 - q) * p == -p - p * q;
    DivModUnique(-1 - c, p, -1 - q, p - 1 - r);
  }

  /** With the arithmetic shift of the top byte in place of its piece the sum is the
      arithmetic shift of the word. */
  lemma SraPieces(x3: Byte, x2: Byte, x1: Byte, x0: Byte, n: nat)
    requires n < 32
    ensures Wrap(Sra(0x100_0000 * x3, n) + Gathered(x2, x1, x0, n)) == Sra(Pack(x0, x1, x2, x3), n)
  {
    hide High, Pow2, Up, Gathered, Sra;
    Pow2Values();
    GatheredHigh(x2, x1, x0, n);
    var w := 0x1_0000 * x2 + 0x100 * x1 + x0;
    var x := Pack(x0, x1, x2, x3);
    SraComplement(x, n);
    SraComplement(0x100_0000 * x3, n);
    UpMul(x3, 24);
    UpMul(255 - x3, 24);
    HighSplit(x3, 24, w, n);
    HighSplit(255 - x3, 24, 0x100_0000 - 1 - w, n);
    HighSplit(255 - x3, 24, 0x100_0000 - 1, n);
    HighComplement(w, 24, n);
  }

  /** The four shifted bytes, each put back in its place and added without regard to
      overflow, are the word shifted left. */
  lemma SllPieces(x3: Byte, x2: Byte, x1: Byte, x0: Byte, n: nat)
    ensures var t3, t2, t1, t0 := Sll(x3, n), Sll(x2, n), Sll(x1, n), Sll(x0, n);
      (t3 % 0x100 * 0x100_0000 + t2 % 0x1_0000 * 0x1_0000 + t1 * 0x100 + t0) % WORDS
      == Sll(Pack(x0, x1, x2, x3), n)
  {
    hide Pow2;
    var p := Pow2(n);
    assert Pack(x0, x1, x2, x3) * p == 0x100_0000 * (x3 * p) + 0x1_0000 * (x2 * p) + 0x100 * (x1 * p) + x0 * p by {
      Distribute(x3, x2, x1, x0, p);
    }
    SumWrap(x3 * p, x2 * p, x1 * p, x0 * p);
  }

  lemma Distribute(x3: int, x2: int, x1: int, x0: int, p: int)
    ensures (x0 + 0x100 * x1 + 0x1_0000 * x2 + 0x100_0000 * x3) * p
      == 0x100_0000 * (x3 * p) + 0x1_0000 * (x2 * p) + 0x100 * (x1 * p) + x0 * p
  {
  }

  lemma SumWrap(t3: nat, t2: nat, t1: nat, t0: nat)
    ensures (t3 % WORDS % 0x100 * 0x100_0000 + t2 % WORDS % 0x1_0000 * 0x1_0000 + t1 % WORDS * 0x100 + t0 % WORDS) % WORDS
      == (0x100_0000 * t3 + 0x1_0000 * t2 + 0x100 * t1 + t0) % WORDS
  {
    var a, b, c, d := t3 % WORDS, t2 % WORDS, t1 % WORDS, t0 % WORDS;
    WrapTimes(0x100_0000 * t3 + 0x1_0000 * t2 + 0x100 * t1 + t0,
              0x100_0000 * (t3 / WORDS) + 0x1_0000 * (t2 / WORDS) + 0x100 * (t1 / WORDS) + t0 / WORDS + a / 0x100 + b / 0x1_0000);
  }

  lemma WrapTimes(x: int, k: int)
    ensures (x - WORDS * k) % WORDS == x % WORDS
  {
    DivModUnique(x - WORDS * k, WORDS, x / WORDS - k, x % WORDS);
  }
}
