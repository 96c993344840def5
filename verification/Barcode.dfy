/** The barcode reader of the Datach: EAN-13 and EAN-8 bars made from digits, and read out
    one after another. */
module Barcode {
  import opened Basics

  type Digit = d: int | 0 <= d < 10

  // The bars of a digit. Three sets and, for the first digit, the choice between two of them.

  function Odd(d: Digit): (r: seq<Bit>)
    ensures |r| == 7
  {
    match d
    case 0 => [0, 0, 0, 1, 1, 0, 1]
    case 1 => [0, 0, 1, 1, 0, 0, 1]
    case 2 => [0, 0, 1, 0, 0, 1, 1]
    case 3 => [0, 1, 1, 1, 1, 0, 1]
    case 4 => [0, 1, 0, 0, 0, 1, 1]
    case 5 => [0, 1, 1, 0, 0, 0, 1]
    case 6 => [0, 1, 0, 1, 1, 1, 1]
    case 7 => [0, 1, 1, 1, 0, 1, 1]
    case 8 => [0, 1, 1, 0, 1, 1, 1]
    case _ => [0, 0, 0, 1, 0, 1, 1]
  }

  function Even(d: Digit): (r: seq<Bit>)
    ensures |r| == 7
  {
    match d
    case 0 => [0, 1, 0, 0, 1, 1, 1]
    case 1 => [0, 1, 1, 0, 0, 1, 1]
    case 2 => [0, 0, 1, 1, 0, 1, 1]
    case 3 => [0, 1, 0, 0, 0, 0, 1]
    case 4 => [0, 0, 1, 1, 1, 0, 1]
    case 5 => [0, 1, 1, 1, 0, 0, 1]
    case 6 => [0, 0, 0, 0, 1, 0, 1]
    case 7 => [0, 0, 1, 0, 0, 0, 1]
    case 8 => [0, 0, 0, 1, 0, 0, 1]
    case _ => [0, 0, 1, 0, 1, 1, 1]
  }

  function Right(d: Digit): (r: seq<Bit>)
    ensures |r| == 7
  {
    match d
    case 0 => [1, 1, 1, 0, 0, 1, 0]
    case 1 => [1, 1, 0, 0, 1, 1, 0]
    case 2 => [1, 1, 0, 1, 1, 0, 0]
    case 3 => [1, 0, 0, 0, 0, 1, 0]
    case 4 => [1, 0, 1, 1, 1, 0, 0]
    case 5 => [1, 0, 0, 1, 1, 1, 0]
    case 6 => [1, 0, 1, 0, 0, 0, 0]
    case 7 => [1, 0, 0, 0, 1, 0, 0]
    case 8 => [1, 0, 0, 1, 0, 0, 0]
    case _ => [1, 1, 1, 0, 1, 0, 0]
  }

  function Parity(d: Digit): (r: seq<Bit>)
    ensures |r| == 6
  {
    match d
    case 0 => [0, 0, 0, 0, 0, 0]
    case 1 => [0, 0, 1, 0, 1, 1]
    case 2 => [0, 0, 1, 1, 0, 1]
    case 3 => [0, 0, 1, 1, 1, 0]
    case 4 => [0, 1, 0, 0, 1, 1]
    case 5 => [0, 1, 1, 0, 0, 1]
    case 6 => [0, 1, 1, 1, 0, 0]
    case 7 => [0, 1, 0, 1, 0, 1]
    case 8 => [0, 1, 0, 1, 1, 0]
    case _ => [0, 1, 1, 0, 1, 0]
  }

  /** The sets are related as the standard has them: the right set is the odd one with bars
      and spaces exchanged, the even one the right one mirrored. */
  lemma SetsRelated(d: Digit, j: nat)
    requires j < 7
    ensures Right(d)[j] == 1 - Odd(d)[j] && Even(d)[j] == Right(d)[6 - j]
  {
    assert j == 0 || j == 1 || j == 2 || j == 3 || j == 4 || j == 5 || j == 6;
  }

  function Number(r: seq<int>): int
  {
    if r == [] then 0 else 2 * Number(r[..|r| - 1]) + r[|r| - 1]
  }

  function OddNumbers(): seq<int> { [13, 25, 19, 61, 35, 49, 47, 59, 55, 11] }

  function EvenNumbers(): seq<int> { [39, 51, 27, 33, 29, 57, 5, 17, 9, 23] }

  function RightNumbers(): seq<int> { [114, 102, 108, 66, 92, 78, 80, 68, 72, 116] }

  function ParityNumbers(): seq<int> { [0, 11, 13, 14, 19, 25, 28, 21, 22, 26] }

  lemma Horner(r: seq<int>)
    ensures |r| == 7 ==>
      Number(r) == 64 * r[0] + 32 * r[1] + 16 * r[2] + 8 * r[3] + 4 * r[4] + 2 * r[5] + r[6]
    ensures |r| == 6 ==> Number(r) == 32 * r[0] + 16 * r[1] + 8 * r[2] + 4 * r[3] + 2 * r[4] + r[5]
  {
    if |r| == 7 {
      assert Number(r) == 2 * Number(r[..6]) + r[6];
      Horner6(r[..6]);
    } else if |r| == 6 {
      Horner6(r);
    }
  }

  lemma Horner6(r: seq<int>)
    requires |r| == 6
    ensures Number(r) == 32 * r[0] + 16 * r[1] + 8 * r[2] + 4 * r[3] + 2 * r[4] + r[5]
  {
    assert Number(r) == 2 * Number(r[..5]) + r[5];
    assert r[..5][..4] == r[..4];
    assert Number(r[..5]) == 2 * Number(r[..4]) + r[4];
    Horner4(r[..4]);
  }

  lemma Horner4(r: seq<int>)
    requires |r| == 4
    ensures Number(r) == 8 * r[0] + 4 * r[1] + 2 * r[2] + r[3]
  {
    assert Number(r) == 2 * Number(r[..3]) + r[3];
    assert r[..3][..2] == r[..2];
    assert Number(r[..3]) == 2 * Number(r[..2]) + r[2];
    assert r[..2][..1] == r[..1];
    assert Number(r[..2]) == 2 * Number(r[..1]) + r[1];
    assert Number(r[..1]) == 2 * Number([]) + r[0];
  }

  lemma Numbers(d: Digit)
    ensures Number(Odd(d)) == OddNumbers()[d] && Number(Even(d)) == EvenNumbers()[d]
    ensures Number(Right(d)) == RightNumbers()[d] && Number(Parity(d)) == ParityNumbers()[d]
  {
    hide Number;
    Horner(Odd(d));
    Horner(Even(d));
    Horner(Right(d));
    Horner(Parity(d));
  }

  /** No two digits share bars, nor the odd and the even set. */
  lemma Distinct(d: Digit, e: Digit)
    ensures Odd(d) != Even(e)
    ensures d != e ==> Odd(d) != Odd(e) && Even(d) != Even(e) && Right(d) != Right(e) && Parity(d) != Parity(e)
  {
    hide Odd, Even, Right, Parity, Number;
    Numbers(d);
    Numbers(e);
  }

  // Rows one after another.

  function Concat(rows: seq<seq<Bit>>): (r: seq<Bit>)
  {
    if rows == [] then [] else Concat(rows[..|rows| - 1]) + rows[|rows| - 1]
  }

  predicate Rows(rows: seq<seq<Bit>>)
  {
    forall i :: 0 <= i < |rows| ==> |rows[i]| == 7
  }

  lemma {:induction false} ConcatRow(rows: seq<seq<Bit>>, i: nat)
    requires Rows(rows) && i < |rows|
    ensures |Concat(rows)| == 7 * |rows| && Concat(rows)[7 * i..7 * i + 7] == rows[i]
    decreases |rows|
  {
    var before, last := rows[..|rows| - 1], rows[|rows| - 1];
    ConcatLength(before);
    if i < |rows| - 1 {
      ConcatRow(before, i);
      assert Concat(rows)[7 * i..7 * i + 7] == Concat(before)[7 * i..7 * i + 7];
    } else {
      assert Concat(rows)[7 * i..7 * i + 7] == last;
    }
  }

  lemma {:induction false} ConcatLength(rows: seq<seq<Bit>>)
    requires Rows(rows)
    ensures |Concat(rows)| == 7 * |rows|
    decreases |rows|
  {
    if rows != [] {
      ConcatLength(rows[..|rows| - 1]);
    }
  }

  // Check digits.

  /** Weights 1 and 3 in turn for EAN-13, 3 and 1 for EAN-8. */
  function Weight(long: bool, i: nat): nat
  {
    if (i % 2 == 1) == long then 3 else 1
  }

  function Sum(long: bool, ds: seq<Digit>): nat
    decreases |ds|
  {
    if ds == [] then 0
    else Sum(long, ds[..|ds| - 1]) + ds[|ds| - 1] * Weight(long, |ds| - 1)
  }

  function Check(long: bool, ds: seq<Digit>): Digit
  {
    (10 - Sum(long, ds) % 10) % 10
  }

  /** A whole code, check digit included, is right when its sum is a multiple of ten. */
  predicate Checked(long: bool, ds: seq<Digit>)
  {
    Sum(long, ds) % 10 == 0
  }

  function DataLength(long: bool): nat
  {
    if long then 12 else 7
  }

  function Completed(long: bool, ds: seq<Digit>): seq<Digit>
    requires |ds| == DataLength(long)
  {
    ds + [Check(long, ds)]
  }

  /** The appended digit is the one that makes the code right. */
  lemma CheckDigit(long: bool, ds: seq<Digit>, d: Digit)
    requires |ds| == DataLength(long)
    ensures Checked(long, ds + [d]) <==> d == Check(long, ds)
  {
    assert (ds + [d])[..|ds|] == ds;
    var s := Sum(long, ds);
    assert Weight(long, |ds|) == 1;
    assert Sum(long, ds + [d]) == s + d;
    TenComplement(s, d);
  }

  lemma TenComplement(s: nat, d: Digit)
    ensures (s + d) % 10 == 0 <==> d == (10 - s % 10) % 10
  {
  }

  /** One digit read wrong is noticed. */
  lemma {:induction false} OneErrorNoticed(long: bool, ds: seq<Digit>, i: nat, d: Digit)
    requires i < |ds| && d != ds[i] && Checked(long, ds)
    ensures !Checked(long, ds[i := d])
  {
    hide Sum;
    SumChange(long, ds, i, d);
    NotTen(Sum(long, ds), d - ds[i]);
  }

  lemma NotTen(s: int, e: int)
    requires s % 10 == 0 && -10 < e < 10 && e != 0
    ensures (s + e) % 10 != 0 && (s + e * 3) % 10 != 0
  {
    assert (e * 3) % 10 != 0;
  }

  lemma {:induction false} SumChange(long: bool, ds: seq<Digit>, i: nat, d: Digit)
    requires i < |ds|
    ensures Sum(long, ds[i := d]) == Sum(long, ds) + (d - ds[i]) * Weight(long, i)
    decreases |ds|
  {
    var n, ds' := |ds| - 1, ds[i := d];
    if i == n {
      assert ds'[..n] == ds[..n];
    } else {
      assert ds'[..n] == ds[..n][i := d];
      SumChange(long, ds[..n], i, d);
    }
  }

  /** A digit counts once or three times by turns: in the long code once first, in the short one
      three times. */
  lemma SumPair(long: bool, ds: seq<Digit>, a: Digit, b: Digit)
    requires |ds| % 2 == 0
    ensures Sum(long, ds + [a, b]) == Sum(long, ds) + if long then a as int + 3 * (b as int) else 3 * (a as int) + b as int
  {
    SumOne(long, ds, a);
    assert ds + [a, b] == ds + [a] + [b];
    SumOne(long, ds + [a], b);
    hide Sum;
  }

  lemma SumOne(long: bool, ds: seq<Digit>, a: Digit)
    ensures Sum(long, ds + [a]) == Sum(long, ds) + a * Weight(long, |ds|)
  {
    assert (ds + [a])[..|ds|] == ds;
  }

  /** Two neighbouring digits changed over are noticed unless they are five apart. */
  lemma SwapNoticed(long: bool, ds: seq<Digit>, i: nat)
    requires i + 1 < |ds| && Checked(long, ds)
    ensures var swapped := ds[i := ds[i + 1]][i + 1 := ds[i]];
      Checked(long, swapped) <==> (ds[i] as int - ds[i + 1] as int) % 5 == 0
  {
    var a: int, b: int := ds[i], ds[i + 1];
    SumChange(long, ds, i, ds[i + 1]);
    SumChange(long, ds[i := ds[i + 1]], i + 1, ds[i]);
    hide Sum;
    WeightsDiffer(long, i, a - b);
    TwiceTen(Sum(long, ds), a - b);
  }

  lemma WeightsDiffer(long: bool, i: nat, e: int)
    ensures e * Weight(long, i + 1) - e * Weight(long, i) == 2 * e || e * Weight(long, i + 1) - e * Weight(long, i) == -2 * e
    ensures -e * Weight(long, i) == -(e * Weight(long, i))
  {
  }

  lemma TwiceTen(s: int, e: int)
    requires s % 10 == 0 && -10 < e < 10
    ensures (s + 2 * e) % 10 == 0 <==> e % 5 == 0
    ensures (s - 2 * e) % 10 == 0 <==> e % 5 == 0
  {
  }

  // Bars of a code.

  function Guard(): seq<Bit> { [1, 0, 1] }

  function Center(): seq<Bit> { [0, 1, 0, 1, 0] }

  /** The rows left of the center. Those of EAN-13 tell its first digit by their sets. */
  function LeftRows(long: bool, ds: seq<Digit>): (r: seq<seq<Bit>>)
    requires |ds| == DataLength(long) + 1
    ensures Rows(r) && |r| == if long then 6 else 4
  {
    if long then seq(6, i requires 0 <= i < 6 => if Parity(ds[0])[i] == 1 then Even(ds[i + 1]) else Odd(ds[i + 1]))
    else seq(4, i requires 0 <= i < 4 => Odd(ds[i]))
  }

  function RightRows(long: bool, ds: seq<Digit>): (r: seq<seq<Bit>>)
    requires |ds| == DataLength(long) + 1
    ensures Rows(r) && |r| == if long then 6 else 4
  {
    if long then seq(6, i requires 0 <= i < 6 => Right(ds[i + 7])) else seq(4, i requires 0 <= i < 4 => Right(ds[i + 4]))
  }

  function Bars(long: bool, ds: seq<Digit>): seq<Bit>
    requires |ds| == DataLength(long) + 1
  {
    Guard() + Concat(LeftRows(long, ds)) + Center() + Concat(RightRows(long, ds)) + Guard()
  }

  // Reading bars back.

  /** The digit a row stands for in a set, counting from `d`; 10 when there is none. */
  function FindOdd(row: seq<Bit>, d: nat): nat
    decreases 10 - d
  {
    if d >= 10 || Odd(d) == row then d else FindOdd(row, d + 1)
  }

  function FindEven(row: seq<Bit>, d: nat): nat
    decreases 10 - d
  {
    if d >= 10 || Even(d) == row then d else FindEven(row, d + 1)
  }

  function FindRight(row: seq<Bit>, d: nat): nat
    decreases 10 - d
  {
    if d >= 10 || Right(d) == row then d else FindRight(row, d + 1)
  }

  function FindParity(row: seq<Bit>, d: nat): nat
    decreases 10 - d
  {
    if d >= 10 || Parity(d) == row then d else FindParity(row, d + 1)
  }

  lemma {:induction false} Finds(d: Digit, from: nat)
    requires from <= d
    ensures FindOdd(Odd(d), from) == d && FindEven(Even(d), from) == d
    ensures FindRight(Right(d), from) == d && FindParity(Parity(d), from) == d
    ensures FindOdd(Even(d), from) >= 10
    decreases d - from
  {
    hide Odd, Even, Right, Parity;
    Distinct(from, d);
    NoOdd(d, from);
    if from < d {
      Finds(d, from + 1);
    }
  }

  lemma {:induction false} NoOdd(d: Digit, from: nat)
    ensures FindOdd(Even(d), from) >= 10
    decreases 10 - from
  {
    hide Odd, Even;
    if from < 10 {
      Distinct(from, d);
      NoOdd(d, from + 1);
    }
  }

  function RowAt(bars: seq<Bit>, start: nat, i: nat): seq<Bit>
    requires start + 7 * i + 7 <= |bars|
  {
    bars[start + 7 * i..start + 7 * i + 7]
  }

  predicate Sized(long: bool, bars: seq<Bit>)
  {
    |bars| == if long then 95 else 67
  }

  /** A row on the left, in whichever set it is. */
  function LeftDigit(bars: seq<Bit>, i: nat): nat
    requires 3 + 7 * i + 7 <= |bars|
  {
    var d := FindOdd(RowAt(bars, 3, i), 0);
    if d < 10 then d else FindEven(RowAt(bars, 3, i), 0)
  }

  function LeftSet(bars: seq<Bit>, i: nat): Bit
    requires 3 + 7 * i + 7 <= |bars|
  {
    if FindOdd(RowAt(bars, 3, i), 0) < 10 then 0 else 1
  }

  function RightDigit(long: bool, bars: seq<Bit>, i: nat): nat
    requires Sized(long, bars) && i < Half(long)
  {
    FindRight(RowAt(bars, if long then 50 else 36, i), 0)
  }

  function Half(long: bool): nat
  {
    if long then 6 else 4
  }

  function LeftDigits(long: bool, bars: seq<Bit>): (r: seq<nat>)
    requires Sized(long, bars)
    ensures |r| == Half(long)
  {
    seq(Half(long), i requires 0 <= i < Half(long) => LeftDigit(bars, i))
  }

  function LeftSets(bars: seq<Bit>): (r: seq<Bit>)
    requires Sized(true, bars)
    ensures |r| == 6
  {
    seq(6, i requires 0 <= i < 6 => LeftSet(bars, i))
  }

  function RightDigits(long: bool, bars: seq<Bit>): (r: seq<nat>)
    requires Sized(long, bars)
    ensures |r| == Half(long)
  {
    seq(Half(long), i requires 0 <= i < Half(long) => RightDigit(long, bars, i))
  }

  /** The digits of the bars. The sets used on the left give the first of a long code. */
  function Decode(long: bool, bars: seq<Bit>): seq<nat>
    requires Sized(long, bars)
  {
    (if long then [FindParity(LeftSets(bars), 0)] else []) + LeftDigits(long, bars) + RightDigits(long, bars)
  }

  lemma BarsLength(long: bool, ds: seq<Digit>)
    requires |ds| == DataLength(long) + 1
    ensures |Bars(long, ds)| == if long then 95 else 67
  {
    hide LeftRows, RightRows;
    ConcatLength(LeftRows(long, ds));
    ConcatLength(RightRows(long, ds));
  }

  lemma BarsRows(long: bool, ds: seq<Digit>, i: nat)
    requires |ds| == DataLength(long) + 1 && i < Half(long)
    ensures |Bars(long, ds)| == if long then 95 else 67
    ensures RowAt(Bars(long, ds), 3, i) == LeftRows(long, ds)[i]
    ensures RowAt(Bars(long, ds), if long then 50 else 36, i) == RightRows(long, ds)[i]
  {
    hide LeftRows, RightRows, Concat;
    BarsLength(long, ds);
    var left, right := LeftRows(long, ds), RightRows(long, ds);
    ConcatRow(left, i);
    ConcatRow(right, i);
    var start := if long then 50 else 36;
    assert RowAt(Bars(long, ds), 3, i) == Concat(left)[7 * i..7 * i + 7];
    assert RowAt(Bars(long, ds), start, i) == Concat(right)[7 * i..7 * i + 7];
  }

  lemma DigitsBack(long: bool, ds: seq<Digit>, i: nat)
    requires |ds| == DataLength(long) + 1 && i < Half(long)
    ensures Sized(long, Bars(long, ds))
    ensures LeftDigit(Bars(long, ds), i) == ds[if long then i + 1 else i]
    ensures long ==> LeftSet(Bars(long, ds), i) == Parity(ds[0])[i]
    ensures RightDigit(long, Bars(long, ds), i) == ds[if long then i + 7 else i + 4]
  {
    hide Bars, Odd, Even, Right, Parity, FindOdd, FindEven, FindRight, FindParity, RowAt;
    BarsRows(long, ds, i);
    Finds(ds[if long then i + 1 else i], 0);
    Finds(ds[if long then i + 7 else i + 4], 0);
  }

  lemma HalvesBack(long: bool, ds: seq<Digit>)
    requires |ds| == DataLength(long) + 1
    ensures Sized(long, Bars(long, ds))
    ensures LeftDigits(long, Bars(long, ds)) == if long then ds[1..7] else ds[..4]
    ensures RightDigits(long, Bars(long, ds)) == if long then ds[7..] else ds[4..]
    ensures long ==> LeftSets(Bars(long, ds)) == Parity(ds[0])
  {
    hide Bars, LeftDigit, LeftSet, RightDigit, Parity;
    BarsLength(long, ds);
    forall i | 0 <= i < Half(long)
      ensures LeftDigit(Bars(long, ds), i) == ds[if long then i + 1 else i]
      ensures long ==> LeftSet(Bars(long, ds), i) == Parity(ds[0])[i]
      ensures RightDigit(long, Bars(long, ds), i) == ds[if long then i + 7 else i + 4]
    {
      DigitsBack(long, ds, i);
    }
  }

  /** The bars of a code read back as the code. */
  lemma DecodesBack(long: bool, ds: seq<Digit>)
    requires |ds| == DataLength(long) + 1
    ensures Sized(long, Bars(long, ds)) && Decode(long, Bars(long, ds)) == ds
  {
    hide Bars, LeftDigits, LeftSets, RightDigits, FindParity, Parity;
    HalvesBack(long, ds);
    Finds(ds[0], 0);
    DigitsTogether(long, ds);
  }

  lemma DigitsTogether(long: bool, ds: seq<Digit>)
    requires |ds| == DataLength(long) + 1
    ensures if long then ds == [ds[0]] + ds[1..7] + ds[7..] else ds == [] + ds[..4] + ds[4..]
  {
  }

  // The text of a code.

  /** The characters before the terminator, thirteen at most. */
  function Text(text: seq<Byte>): (r: seq<Byte>)
    ensures |r| <= 13 && |r| <= |text| && r == text[..|r|]
  {
    if text == [] then [] else TextFrom(text, 0)
  }

  function TextFrom(text: seq<Byte>, i: nat): (r: seq<Byte>)
    requires i <= |text| && i <= 13
    ensures i <= |r| <= 13 && |r| <= |text| && r == text[..|r|]
    decreases 13 - i
  {
    if i == 13 || i == |text| || text[i] == 0 then text[..i] else TextFrom(text, i + 1)
  }

  predicate IsDigit(c: Byte)
  {
    48 <= c < 58
  }

  /** All digits, and 7 or 8 or 12 or 13 of them. */
  predicate Accepted(text: seq<Byte>)
  {
    (forall i :: 0 <= i < |Text(text)| ==> IsDigit(Text(text)[i])) && |Text(text)| in {7, 8, 12, 13}
  }

  predicate Long(text: seq<Byte>)
  {
    |Text(text)| >= 12
  }

  /** The digits given, without a check digit of their own. */
  function Data(text: seq<Byte>): (r: seq<Digit>)
    requires Accepted(text)
    ensures |r| == DataLength(Long(text))
  {
    seq(DataLength(Long(text)), i requires 0 <= i < DataLength(Long(text)) => Text(text)[i] - 48)
  }

  function Zeros(): seq<Byte>
  {
    seq(32, _ => 0)
  }

  /** The bars between quiet zones, and the end mark. */
  function Image(long: bool, ds: seq<Digit>): seq<Byte>
    requires |ds| == DataLength(long)
  {
    Zeros() + Bars(long, Completed(long, ds)) + Zeros() + [0xFF]
  }

  lemma ImageShape(long: bool, ds: seq<Digit>)
    requires |ds| == DataLength(long)
    ensures |Image(long, ds)| == (if long then 160 else 132)
    ensures forall j :: 0 <= j < |Image(long, ds)| - 1 ==> Image(long, ds)[j] == 0 || Image(long, ds)[j] == 1
    ensures Image(long, ds)[|Image(long, ds)| - 1] == 0xFF
  {
    hide Bars;
    BarsLength(long, Completed(long, ds));
  }

  /** What is stored for a code decodes to its digits and the digit that makes them right. */
  lemma ImageDecodes(long: bool, ds: seq<Digit>)
    requires |ds| == DataLength(long)
    ensures var n := |Image(long, ds)|;
      && n == (if long then 160 else 132) && Sized(long, Image(long, ds)[32..n - 33])
      && Decode(long, Image(long, ds)[32..n - 33]) == Completed(long, ds) && Checked(long, Completed(long, ds))
  {
    hide Bars, Decode, Check;
    var whole := Completed(long, ds);
    BarsLength(long, whole);
    DecodesBack(long, whole);
    CheckDigit(long, ds, Check(long, ds));
    assert Image(long, ds)[32..|Image(long, ds)| - 33] == Bars(long, whole);
  }

  // Playing the bars.

  datatype Player = Player(pos: nat, cycles: nat, out: int)

  /** The bars as a reader meets them: none is the end mark, and the end mark follows them. */
  predicate Ended(data: seq<Byte>, end: nat)
  {
    end < |data| && data[end] == 0xFF && forall j :: 0 <= j < end ==> data[j] == 0 || data[j] == 1
  }

  /** Each thousand cycles the next bar, inverted; after the last one, nothing. */
  function Tick(data: seq<Byte>, p: Player, a: nat): Player
    requires p.pos < |data|
  {
    var cycles := p.cycles + a;
    if cycles < 1000 then p.(cycles := cycles)
    else if data[p.pos] == 0xFF then Player(p.pos, cycles - 1000, 0)
    else Player(p.pos + 1, cycles - 1000, 8 * (1 - data[p.pos] as int))
  }

  function Total(times: seq<nat>): nat
  {
    if times == [] then 0 else Total(times[..|times| - 1]) + times[|times| - 1]
  }

  ghost predicate Plays(data: seq<Byte>, end: nat, times: seq<nat>, p: Player, moves: nat)
  {
    && 1000 * moves + p.cycles == Total(times)
    && p.pos == (if moves < end then moves else end)
    && p.out == if moves == 0 then 8 else if moves <= end && moves - 1 < |data| then 8 * (1 - data[moves - 1] as int) else 0
  }

  /** Each call moves the reader on by one bar at most, and no further than the end. */
  lemma TickPlays(data: seq<Byte>, end: nat, times: seq<nat>, p: Player, moves: nat, a: nat) returns (moves': nat)
    requires Ended(data, end) && Plays(data, end, times, p, moves)
    ensures p.pos < |data| && Plays(data, end, times + [a], Tick(data, p, a), moves')
    ensures moves' == moves + if p.cycles + a < 1000 then 0 else 1
  {
    assert (times + [a])[..|times|] == times;
    moves' := if p.cycles + a < 1000 then moves else moves + 1;
  }

  const START: Player := Player(0, 0, 8)

  /** The reader after a list of calls. */
  function Ticks(data: seq<Byte>, end: nat, times: seq<nat>): (p: Player)
    requires Ended(data, end)
    ensures p.pos <= end
    decreases |times|
  {
    if times == [] then START else Tick(data, Ticks(data, end, times[..|times| - 1]), times[|times| - 1])
  }

  lemma {:induction false} TicksPlay(data: seq<Byte>, end: nat, times: seq<nat>) returns (moves: nat)
    requires Ended(data, end)
    ensures Plays(data, end, times, Ticks(data, end, times), moves)
    decreases |times|
  {
    if times == [] {
      moves := 0;
    } else {
      var before := times[..|times| - 1];
      moves := TicksPlay(data, end, before);
      moves := TickPlays(data, end, before, Ticks(data, end, before), moves, times[|times| - 1]);
      assert before + [times[|times| - 1]] == times;
    }
  }

  /** Less than a thousand cycles are left over: the bars played are those due. */
  predicate Due(data: seq<Byte>, end: nat, times: seq<nat>)
    requires Ended(data, end)
  {
    var p := Ticks(data, end, times);
    && p.cycles < 1000
    && p.pos == (if Total(times) / 1000 < end then Total(times) / 1000 else end)
  }

  /** No call brings two thousand cycles together with those left over before it. */
  predicate Steady(times: seq<nat>)
  {
    forall i :: 0 <= i < |times| ==> Total(times[..i]) % 1000 + times[i] < 2000
  }

  lemma DueExactly(data: seq<Byte>, end: nat, times: seq<nat>)
    requires Ended(data, end)
    ensures Due(data, end, times) <==> Ticks(data, end, times).cycles < 1000
    ensures Due(data, end, times) ==> Ticks(data, end, times).cycles == Total(times) % 1000
  {
    hide Ticks, Total;
    var moves := TicksPlay(data, end, times);
  }

  /** After every call the bars played are those due, one for each thousand cycles, exactly when
      the calls are steady. */
  lemma {:induction false} OnTime(data: seq<Byte>, end: nat, times: seq<nat>)
    requires Ended(data, end)
    ensures (forall k :: 0 <= k <= |times| ==> Due(data, end, times[..k])) <==> Steady(times)
    decreases |times|
  {
    hide Due, Total;
    if times == [] {
      DueExactly(data, end, []);
      assert times[..0] == [];
    } else {
      var n := |times| - 1;
      var before := times[..n];
      OnTime(data, end, before);
      assert forall k :: 0 <= k <= n ==> before[..k] == times[..k];
      assert times[..|times|] == times;
      if Due(data, end, before) {
        DueStep(data, end, before, times[n]);
        assert before + [times[n]] == times;
      }
      assert before[..n] == before;
    }
  }

  lemma DueStep(data: seq<Byte>, end: nat, times: seq<nat>, a: nat)
    requires Ended(data, end) && Due(data, end, times)
    ensures Due(data, end, times + [a]) <==> Total(times) % 1000 + a < 2000
  {
    hide Total;
    DueExactly(data, end, times);
    DueExactly(data, end, times + [a]);
    assert (times + [a])[..|times|] == times;
    hide Due;
  }

  /** Calls of at most a thousand cycles are steady. */
  lemma ShortCallsSteady(times: seq<nat>)
    requires forall i :: 0 <= i < |times| ==> times[i] <= 1000
    ensures Steady(times)
  {
    hide Total;
  }

  /** A call that brings five thousand at once plays one bar and leaves four thousand over. */
  lemma LongCallLags(data: seq<Byte>, end: nat)
    requires Ended(data, end) && end >= 5
    ensures Ticks(data, end, [5000]).pos == 1 && Ticks(data, end, [5000]).cycles == 4000
    ensures !Due(data, end, [5000])
  {
    assert [5000][..0] == [];
    assert Ticks(data, end, []) == START;
  }

  // The device in place.

  class Reader {
    const data: array<Byte>
    var pos: nat
    var cycles: nat
    var out: int
    ghost var end: nat
    ghost var times: seq<nat>

    ghost predicate Sound()
    {
      data.Length == 256
    }

    ghost predicate Valid()
      reads this, data
    {
      Sound() && Ended(data[..], end) && pos <= end
    }

    /** After a code was set, the bars played are those of the time that has passed. */
    ghost predicate Playing()
      reads this, data
    {
      Valid() && Player(pos, cycles, out) == Ticks(data[..], end, times)
    }

    constructor ()
      ensures Valid() && fresh(data) && out == 0 && pos == 0 && cycles == 0 && data[0] == 0xFF
    {
      data := new Byte[256](_ => 0);
      pos, cycles, out, end, times := 0, 0, 0, 0, [];
      new;
      data[0] := 0xFF;
    }

    method Put(p: nat, bits: seq<Byte>) returns (p': nat)
      requires Sound() && p + |bits| <= 256
      modifies data
      ensures p' == p + |bits| && data[..p'] == old(data[..p]) + bits
    {
      p' := p;
      for j := 0 to |bits|
        invariant p' == p + j && data[..p'] == old(data[..p]) + bits[..j]
      {
        data[p'] := bits[j];
        p' := p' + 1;
        assert data[..p'] == data[..p' - 1] + [bits[j]];
      }
    }

    /** The quiet zone on either side. */
    method PutZeros(p: nat) returns (p': nat)
      requires Sound() && p + 32 <= 256
      modifies data
      ensures p' == p + 32 && data[..p'] == old(data[..p]) + Zeros()
    {
      p' := p;
      for j := 0 to 32
        invariant p' == p + j && data[..p'] == old(data[..p]) + Zeros()[..j]
      {
        data[p'] := 0;
        p' := p' + 1;
        assert data[..p'] == data[..p' - 1] + [0];
      }
    }

    method PutRows(p: nat, rows: seq<seq<Bit>>) returns (p': nat)
      requires Sound() && Rows(rows) && p + 7 * |rows| <= 256
      modifies data
      ensures p' == p + 7 * |rows| && data[..p'] == old(data[..p]) + Concat(rows)
    {
      p' := p;
      for i := 0 to |rows|
        invariant p' == p + 7 * i && data[..p'] == old(data[..p]) + Concat(rows[..i])
      {
        p' := Put(p', rows[i]);
        assert rows[..i + 1][..i] == rows[..i];
      }
      assert rows[..|rows|] == rows;
    }

    method CheckOf(long: bool, ds: seq<Digit>) returns (c: Digit)
      requires |ds| == DataLength(long)
      ensures c == Check(long, ds)
    {
      var sum: nat := 0;
      for i := 0 to |ds|
        invariant sum == Sum(long, ds[..i])
      {
        if long {
          sum := sum + ds[i] as nat * (if i % 2 == 1 then 3 else 1);
        } else if i % 2 == 1 {
          sum := sum + ds[i] as nat;
        } else {
          sum := sum + ds[i] as nat * 3;
        }
        assert ds[..i + 1][..i] == ds[..i];
      }
      assert ds[..|ds|] == ds;
      c := (10 - sum % 10) % 10;
    }

    method Parse(text: seq<Byte>) returns (ok: bool, ds: seq<Digit>)
      ensures ok <==> Accepted(text)
      ensures ok ==> ds == Data(text)
    {
      var code: seq<Digit> := [];
      var i := 0;
      ok := false;
      ds := [];
      assert text == [] ==> Text(text) == [];
      while i < 13 && i < |text| && text[i] != 0
        invariant i <= 13 && i <= |text| && |code| == i
        invariant text == [] || Text(text) == TextFrom(text, i)
        invariant forall j :: 0 <= j < i ==> IsDigit(text[j]) && code[j] == text[j] - 48
      {
        if text[i] < 0x30 || text[i] > 0x39 {
          assert Text(text)[i] == text[i];
          return;
        }
        code := code + [text[i] - 48];
        i := i + 1;
      }
      assert |Text(text)| == i;
      ok := i == 13 || i == 12 || i == 8 || i == 7;
      if ok {
        ds := code[..if i >= 12 then 12 else 7];
      }
    }

    method PutBars(p: nat, long: bool, ds: seq<Digit>) returns (p': nat)
      requires Sound() && |ds| == DataLength(long) + 1 && p + (if long then 95 else 67) <= 256
      modifies data
      ensures p' == p + (if long then 95 else 67) && data[..p'] == old(data[..p]) + Bars(long, ds)
    {
      hide LeftRows, RightRows, Concat;
      ghost var start := data[..p];
      p' := Put(p, [1, 0, 1]);
      p' := PutRows(p', LeftRows(long, ds));
      p' := Put(p', [0, 1, 0, 1, 0]);
      p' := PutRows(p', RightRows(long, ds));
      p' := Put(p', [1, 0, 1]);
      Joined(start, Guard(), Concat(LeftRows(long, ds)), Center(), Concat(RightRows(long, ds)), Guard());
    }

    /** FCEUI_DatachSet. */
    method Set(text: seq<Byte>) returns (ok: bool)
      requires Valid()
      modifies this, data
      ensures Valid() && (ok <==> Accepted(text))
      ensures !ok ==> data[..] == old(data[..]) && pos == old(pos) && cycles == old(cycles) && out == old(out)
      ensures ok ==>
        && Playing() && times == []
        && end + 1 == |Image(Long(text), Data(text))| && data[..end + 1] == Image(Long(text), Data(text))
    {
      hide Bars, Check, Data, Text;
      var ds;
      ok, ds := Parse(text);
      if !ok {
        return;
      }
      var long := |ds| == 12;
      var check := CheckOf(long, ds);
      var p := PutZeros(0);
      p := PutBars(p, long, ds + [check]);
      p := PutZeros(p);
      p := Put(p, [0xFF]);
      ImageShape(long, ds);
      assert data[..p] == Image(long, ds);
      Start(p, long, ds);
    }

    method Start(p: nat, long: bool, ds: seq<Digit>)
      requires Sound() && |ds| == DataLength(long) && p == |Image(long, ds)| <= 256 && data[..p] == Image(long, ds)
      modifies this
      ensures Playing() && times == [] && end + 1 == p
    {
      hide Image;
      ImageShape(long, ds);
      pos, out, cycles := 0, 8, 0;
      end, times := p - 1, [];
      assert forall j :: 0 <= j < p ==> data[j] == Image(long, ds)[j];
    }

    /** BarcodeIRQHook: some cycles have passed. */
    method Pass(a: nat)
      requires Valid()
      modifies this
      ensures Valid() && Player(pos, cycles, out) == Tick(data[..], old(Player(pos, cycles, out)), a)
      ensures end == old(end) && times == old(times) + [a] && (old(Playing()) ==> Playing())
    {
      assert (times + [a])[..|times|] == times;
      times := times + [a];
      cycles := cycles + a;
      if cycles >= 1000 {
        cycles := cycles - 1000;
        if data[pos] == 0xFF {
          out := 0;
        } else {
          out := 8 * (1 - data[pos] as int);
          pos := pos + 1;
        }
      }
    }
  }

  lemma Joined(start: seq<int>, a: seq<int>, b: seq<int>, c: seq<int>, d: seq<int>, e: seq<int>)
    ensures start + a + b + c + d + e == start + (a + b + c + d + e)
  {
  }
}
