/** The program banks of a cartridge: 32 pages of 2 KiB pointing into up to 32 chips. */
module Cart {
  import opened Basics
  import opened Bits

  const PAGE := 0x800

  /** A chip as registered. Its size is a power of two. */
  datatype Chip = Chip(size: nat, present: bool, ram: bool)

  /** A pointer into a chip, moved back by the address it is used with. */
  datatype Pointer = Pointer(chip: nat, base: int)

  datatype Slot = Slot(page: Option<Pointer>, ram: bool)

  // Bank masks.

  /** The bank number masked to the banks of `n` pages that the chip has. */
  function Masked(v: Word, size: nat, n: nat): nat
    requires n > 0
  {
    BitOp(And, 32, v, (size / (PAGE * n) + 0xFFFF_FFFF) % 0x1_0000_0000)
  }

  lemma MaskBits(size: nat, n: nat, bits: nat, k: nat)
    requires size == Pow2(bits) && PAGE * n == Pow2(k) && k <= bits < 32
    ensures size == Pow2(bits - k) * (PAGE * n)
    ensures (size / (PAGE * n) + 0xFFFF_FFFF) % 0x1_0000_0000 == Pow2(bits - k) - 1
    ensures Pow2(bits - k) < 0x1_0000_0000
  {
    hide Pow2;
    Pow2Add(bits - k, k);
    DivModUnique(size, PAGE * n, Pow2(bits - k), 0);
    Pow2Below(bits - k);
  }

  lemma {:induction false} Pow2Below(k: nat)
    requires k < 32
    ensures Pow2(k) < 0x1_0000_0000
  {
    hide Pow2;
    Pow2Values();
    Pow2Add(k, 32 - k);
    Pow2Twice(32 - k - 1);
    MulGrows(Pow2(k), Pow2(32 - k));
    MulGrows(Pow2(32 - k), Pow2(k));
    var p, q := Pow2(k), Pow2(32 - k - 1);
    assert p * (2 * q) == 2 * (p * q);
    MulGrows(q, p);
  }

  lemma Pow2Twice(k: nat)
    ensures Pow2(k + 1) == 2 * Pow2(k)
  {
  }

  /** Masking is taking the remainder, and wrap-around of the bank number does not matter. */
  lemma MaskedMod(y: nat, size: nat, n: nat, bits: nat, k: nat)
    requires n > 0 && size == Pow2(bits) && PAGE * n == Pow2(k) && k <= bits < 32
    ensures size == Pow2(bits - k) * (PAGE * n)
    ensures Masked(y % 0x1_0000_0000, size, n) == y % Pow2(bits - k)
  {
    hide Pow2, BitOp, Low, High;
    var m := Pow2(bits - k);
    MaskBits(size, n, bits, k);
    Pow2Values();
    AndMask(32, bits - k, y);
    HighLow(y, bits - k);
    HighLow(y, 32);
    HighLow(m - 1, 32);
    DivModUnique(m - 1, 0x1_0000_0000, 0, m - 1);
    BitOpLow(And, 32, y, m - 1);
  }

  /** A bank number taken modulo the banks, then a place in the bank, is the place in the
      chip modulo its size. */
  lemma BankPlace(v: nat, m: nat, w: nat, o: nat)
    requires m > 0 && o < w
    ensures (v % m) * w + o == (v * w + o) % (m * w) < m * w
  {
    var q, r := v / m, v % m;
    assert v == q * m + r;
    assert v * w == q * (m * w) + r * w by { Distribute(q, m, r, w); }
    assert r * w + o < m * w by { Below(r, m, w, o); }
    DivModUnique(v * w + o, m * w, q, r * w + o);
  }

  lemma Distribute(q: nat, m: nat, r: nat, w: nat)
    ensures (q * m + r) * w == q * (m * w) + r * w
  {
  }

  lemma Below(r: nat, m: nat, w: nat, o: nat)
    requires r < m && o < w
    ensures 0 <= r * w + o < m * w
  {
    assert m * w == r * w + (m - r) * w;
    MulGrows(m - r, w);
  }

  // Setting banks.

  /** The pages of a bank: 1, 2, 4, 8 or 16, for setprg2r to setprg32r. */
  predicate Banks(n: nat)
  {
    n == 1 || n == 2 || n == 4 || n == 8 || n == 16
  }

  predicate Window(n: nat, a: Addr)
  {
    Banks(n) && a % PAGE == 0 && a + PAGE * n <= 0x1_0000
  }

  predicate Table(slots: seq<Slot>)
  {
    |slots| == 32
  }

  function SetPages(slots: seq<Slot>, first: nat, n: nat, s: Slot): (r: seq<Slot>)
    requires first + n <= |slots|
    ensures |r| == |slots|
  {
    slots[..first] + seq(n, _ => s) + slots[first + n..]
  }

  /** A slot for address `a` onto the place `place` of a chip. */
  function Onto(chips: seq<Chip>, r: nat, place: nat, a: int): Slot
    requires r < |chips|
  {
    if chips[r].present then Slot(Some(Pointer(r, place - a)), chips[r].ram) else Slot(None, false)
  }

  /** Pages `x` to `n` set one by one. */
  function SetTwos(chips: seq<Chip>, slots: seq<Slot>, r: nat, a: Addr, va: Word, x: nat, n: nat): (s: seq<Slot>)
    requires Table(slots) && r < |chips| && x <= n && Window(n, a)
    ensures Table(s)
    decreases n - x
  {
    if x == n then slots
    else
      var page := a / PAGE + x;
      var place := PAGE * Masked((va + x) % 0x1_0000_0000, chips[r].size, 1);
      SetTwos(chips, SetPages(slots, page, 1, Onto(chips, r, place, PAGE * page)), r, a, va, x + 1, n)
  }

  /** setprg2r to setprg32r. The larger three fall back on single pages for a chip smaller
      than the bank. */
  function SetBank(chips: seq<Chip>, slots: seq<Slot>, n: nat, r: nat, a: Addr, v: Word): (s: seq<Slot>)
    requires Table(slots) && r < |chips| && Window(n, a)
    ensures Table(s)
  {
    if n <= 2 || chips[r].size >= PAGE * n then
      SetPages(slots, a / PAGE, n, Onto(chips, r, PAGE * n * Masked(v, chips[r].size, n), a))
    else SetTwos(chips, slots, r, a, v * n % 0x1_0000_0000, 0, n)
  }

  lemma SetPagesAt(slots: seq<Slot>, first: nat, n: nat, s: Slot, j: nat)
    requires first + n <= |slots| && j < |slots|
    ensures SetPages(slots, first, n, s)[j] == if first <= j < first + n then s else slots[j]
  {
  }

  lemma {:induction false} SetTwosAt(chips: seq<Chip>, slots: seq<Slot>, r: nat, a: Addr, va: Word, x: nat, n: nat, j: nat)
    requires Table(slots) && r < |chips| && x <= n && Window(n, a) && j < 32
    ensures var i := j - a / PAGE;
      SetTwos(chips, slots, r, a, va, x, n)[j] ==
        if x <= i < n then Onto(chips, r, PAGE * Masked((va + i) % 0x1_0000_0000, chips[r].size, 1), PAGE * j)
        else slots[j]
    decreases n - x
  {
    hide Masked, Onto, SetPages;
    if x < n {
      var page := a / PAGE + x;
      var place := PAGE * Masked((va + x) % 0x1_0000_0000, chips[r].size, 1);
      var one := SetPages(slots, page, 1, Onto(chips, r, place, PAGE * page));
      SetPagesAt(slots, page, 1, Onto(chips, r, place, PAGE * page), j);
      SetTwosAt(chips, one, r, a, va, x + 1, n, j);
    }
  }

  /** A chip of a power of two of bytes, at least a page, and for setprg4r at least two. */
  predicate Fitting(c: Chip, n: nat, bits: nat)
  {
    c.size == Pow2(bits) && (if n == 2 then 12 else 11) <= bits < 32
  }

  function Log(n: nat): nat
    requires Banks(n)
  {
    if n == 1 then 11 else if n == 2 then 12 else if n == 4 then 13 else if n == 8 then 14 else 15
  }

  lemma LogPow2(n: nat)
    requires Banks(n)
    ensures PAGE * n == Pow2(Log(n))
  {
    hide Pow2;
    Pow2Add(3, 8);
    Pow2Values();
    Pow2Eight();
    Pow2Add(1, 11);
    Pow2Add(2, 11);
    Pow2Add(3, 11);
    Pow2Add(4, 11);
  }

  lemma Pow2Eight()
    ensures Pow2(1) == 2 && Pow2(2) == 4 && Pow2(3) == 8 && Pow2(4) == 16
  {
  }

  /** The place a page of the bank is mapped to. */
  lemma PagePlace(size: nat, n: nat, bits: nat, v: nat, i: nat)
    requires Banks(n) && size == Pow2(bits) && Log(n) <= bits < 32 && i < n
    ensures n * Masked(v % 0x1_0000_0000, size, n) + i == Masked((v * n + i) % 0x1_0000_0000, size, 1)
  {
    hide Pow2, Masked;
    LogPow2(n);
    LogPow2(1);
    MaskedMod(v, size, n, bits, Log(n));
    MaskedMod(v * n + i, size, 1, bits, 11);
    var m := Pow2(bits - Log(n));
    BankPlace(v, m, n, i);
    Cancel(m, n, Pow2(bits - 11));
  }

  lemma Cancel(m: nat, n: nat, m2: nat)
    requires m * (PAGE * n) == m2 * PAGE
    ensures m * n == m2
  {
    assert m * (PAGE * n) == PAGE * (m * n);
  }

  lemma WrapOnce(v: nat, i: nat)
    ensures (v % 0x1_0000_0000 + i) % 0x1_0000_0000 == (v + i) % 0x1_0000_0000
  {
  }

  lemma SameBase(n: nat, m: nat, i: nat, a: nat, j: nat)
    requires a % PAGE == 0 && i == j - a / PAGE
    ensures PAGE * n * m - a == PAGE * (n * m + i) - PAGE * j
  {
    assert PAGE * n * m == PAGE * (n * m);
  }

  /** The slot of page `j` of a bank mapped whole. */
  lemma BankSlot(chips: seq<Chip>, r: nat, n: nat, a: Addr, v: Word, bits: nat, i: nat)
    requires r < |chips| && Window(n, a) && chips[r].size == Pow2(bits) && Log(n) <= bits < 32 && i < n
    ensures var va, j := v * n % 0x1_0000_0000, a / PAGE + i;
      Onto(chips, r, PAGE * n * Masked(v, chips[r].size, n), a) ==
        Onto(chips, r, PAGE * Masked((va + i) % 0x1_0000_0000, chips[r].size, 1), PAGE * j)
  {
    hide Pow2, Masked;
    PagePlace(chips[r].size, n, bits, v, i);
    WrapOnce(v * n, i);
    SameBase(n, Masked(v, chips[r].size, n), i, a, a / PAGE + i);
  }

  /** Setting a bank is setting its pages one by one, on the large branch too. */
  lemma BankIsPages(chips: seq<Chip>, slots: seq<Slot>, n: nat, r: nat, a: Addr, v: Word, bits: nat)
    requires Table(slots) && r < |chips| && Window(n, a) && Fitting(chips[r], n, bits)
    ensures SetBank(chips, slots, n, r, a, v) == SetTwos(chips, slots, r, a, v * n % 0x1_0000_0000, 0, n)
  {
    hide Pow2, Masked, Onto, SetTwos, Log;
    var big, small := SetBank(chips, slots, n, r, a, v), SetTwos(chips, slots, r, a, v * n % 0x1_0000_0000, 0, n);
    if n <= 2 || chips[r].size >= PAGE * n {
      LargeEnough(n, bits);
      forall j | 0 <= j < 32 ensures big[j] == small[j] {
        SetTwosAt(chips, slots, r, a, v * n % 0x1_0000_0000, 0, n, j);
        var i := j - a / PAGE;
        if 0 <= i < n {
          BankSlot(chips, r, n, a, v, bits, i);
        }
      }
    }
  }

  lemma LargeEnough(n: nat, bits: nat)
    requires Banks(n) && (if n == 2 then 12 else 11) <= bits
    requires n <= 2 || Pow2(bits) >= PAGE * n
    ensures Log(n) <= bits
  {
    if n > 2 && bits < Log(n) {
      LogPow2(n);
      Pow2Add(bits, Log(n) - bits);
      Pow2Twice(Log(n) - bits - 1);
      MulGrows(2 * Pow2(Log(n) - bits - 1), Pow2(bits));
      assert false;
    }
  }

  // Reading.

  /** CartBROB: the byte of the page an address lies in, if the page is set. */
  function ReadAt(slots: seq<Slot>, memory: seq<seq<Byte>>, a: Addr): Option<Byte>
    requires Table(slots)
  {
    match slots[a / PAGE].page
    case None => None
    case Some(p) => if p.chip < |memory| && 0 <= p.base + a < |memory[p.chip]| then Some(memory[p.chip][p.base + a]) else None
  }

  /** Page `i` of the bank is the chip's page `v * n + i`, counted round the chip. */
  lemma BankPage(chips: seq<Chip>, slots: seq<Slot>, n: nat, r: nat, a: Addr, v: Word, bits: nat, i: nat)
    requires Table(slots) && r < |chips| && Window(n, a) && Fitting(chips[r], n, bits) && i < n
    ensures chips[r].size == Pow2(bits - 11) * PAGE
    ensures SetBank(chips, slots, n, r, a, v)[a / PAGE + i]
         == Onto(chips, r, PAGE * ((v * n + i) % Pow2(bits - 11)), PAGE * (a / PAGE + i))
  {
    hide Pow2, Masked, SetBank, SetTwos, Log, Onto;
    var va, size := v * n % 0x1_0000_0000, chips[r].size;
    BankIsPages(chips, slots, n, r, a, v, bits);
    SetTwosAt(chips, slots, r, a, va, 0, n, a / PAGE + i);
    LogPow2(1);
    LogOne();
    MaskedMod(va + i, size, 1, bits, 11);
    WrapOnce(v * n, i);
    MaskedMod(v * n + i, size, 1, bits, 11);
  }

  /** A page of a chip is read byte by byte. */
  lemma PageReads(chips: seq<Chip>, slots: seq<Slot>, memory: seq<seq<Byte>>, r: nat, q: nat, j: nat, rest: nat)
    requires Table(slots) && r < |chips| == |memory| && j < 32 && rest < PAGE
    requires chips[r].present && slots[j] == Onto(chips, r, PAGE * q, PAGE * j) && PAGE * q + rest < |memory[r]|
    ensures ReadAt(slots, memory, PAGE * j + rest) == Some(memory[r][PAGE * q + rest])
  {
    assert (PAGE * j + rest) / PAGE == j;
  }

  /** Each address of the bank reads the chip's byte at its place, counted round the chip. */
  lemma BankReads(chips: seq<Chip>, slots: seq<Slot>, memory: seq<seq<Byte>>, n: nat, r: nat, a: Addr, v: Word,
                  bits: nat, o: nat)
    requires Table(slots) && r < |chips| == |memory| && Window(n, a) && Fitting(chips[r], n, bits)
    requires |memory[r]| == chips[r].size && chips[r].present && o < PAGE * n
    ensures chips[r].size > 0
    ensures ReadAt(SetBank(chips, slots, n, r, a, v), memory, a + o)
         == Some(memory[r][(v * (PAGE * n) + o) % chips[r].size])
  {
    hide Pow2, SetBank, ReadAt, Onto;
    var i, rest, m2 := o / PAGE, o % PAGE, Pow2(bits - 11);
    var q := (v * n + i) % m2;
    BankPage(chips, slots, n, r, a, v, bits, i);
    BankPlace(v * n + i, m2, PAGE, rest);
    BytePlace(v, n, o);
    PageReads(chips, SetBank(chips, slots, n, r, a, v), memory, r, q, a / PAGE + i, rest);
  }

  lemma BytePlace(v: nat, n: nat, o: nat)
    ensures (v * n + o / PAGE) * PAGE + o % PAGE == v * (PAGE * n) + o
  {
    assert v * n * PAGE == v * (PAGE * n);
  }

  lemma LogOne()
    ensures Log(1) == 11
  {
  }

  /** The pages outside the bank stay. */
  lemma BankKeepsOthers(chips: seq<Chip>, slots: seq<Slot>, n: nat, r: nat, a: Addr, v: Word, bits: nat, j: nat)
    requires Table(slots) && r < |chips| && Window(n, a) && Fitting(chips[r], n, bits)
    requires j < 32 && !(a / PAGE <= j < a / PAGE + n)
    ensures SetBank(chips, slots, n, r, a, v)[j] == slots[j]
  {
    hide Masked, SetBank, SetTwos;
    BankIsPages(chips, slots, n, r, a, v, bits);
    SetTwosAt(chips, slots, r, a, v * n % 0x1_0000_0000, 0, n, j);
  }

  // Pages inside their chips.

  /** The whole page of slot `j` lies in its chip. */
  predicate Inside(chips: seq<Chip>, s: Slot, j: nat)
  {
    s.page.Some? ==>
      && s.page.value.chip < |chips|
      && 0 <= s.page.value.base + PAGE * j
      && s.page.value.base + PAGE * j + PAGE <= chips[s.page.value.chip].size
  }

  predicate AllInside(chips: seq<Chip>, slots: seq<Slot>)
  {
    forall j :: 0 <= j < |slots| ==> Inside(chips, slots[j], j)
  }

  lemma PageFits(q: nat, m: nat)
    requires q < m
    ensures PAGE * q + PAGE <= m * PAGE
  {
  }

  /** Setting a bank of a fitting chip keeps every page inside its chip. */
  lemma BankInside(chips: seq<Chip>, slots: seq<Slot>, n: nat, r: nat, a: Addr, v: Word, bits: nat)
    requires Table(slots) && r < |chips| && Window(n, a) && Fitting(chips[r], n, bits) && AllInside(chips, slots)
    ensures AllInside(chips, SetBank(chips, slots, n, r, a, v))
  {
    hide Pow2, Masked, SetBank, SetTwos, Log;
    var va, m2 := v * n % 0x1_0000_0000, Pow2(bits - 11);
    BankIsPages(chips, slots, n, r, a, v, bits);
    LogPow2(1);
    LogOne();
    forall j | 0 <= j < 32 ensures Inside(chips, SetBank(chips, slots, n, r, a, v)[j], j) {
      SetTwosAt(chips, slots, r, a, va, 0, n, j);
      var i := j - a / PAGE;
      if 0 <= i < n {
        MaskedMod(va + i, chips[r].size, 1, bits, 11);
        ModBelow(va + i, m2);
        PageFits((va + i) % m2, m2);
      }
    }
  }

  lemma ModBelow(x: nat, m: nat)
    requires m > 0
    ensures 0 <= x % m < m
  {
  }

  // setprg4r on a chip of one page: its mask keeps every bank number.

  lemma WideMask(v: Word)
    ensures Masked(v, PAGE, 2) == v
  {
    hide BitOp, Pow2, Low, High;
    Pow2Values();
    AndMask(32, 32, v);
    HighLow(v, 32);
    DivModUnique(v, 0x1_0000_0000, 0, v);
    assert PAGE / (PAGE * 2) == 0;
  }

  /** The two slots it sets. */
  lemma FourSlots(chips: seq<Chip>, slots: seq<Slot>, r: nat, a: Addr, v: Word, j: nat)
    requires Table(slots) && r < |chips| && Window(2, a) && chips[r].size == PAGE && j < 32
    ensures SetBank(chips, slots, 2, r, a, v)[j] ==
      if a / PAGE <= j < a / PAGE + 2 then Onto(chips, r, PAGE * 2 * v, a) else slots[j]
  {
    hide Masked, Onto;
    WideMask(v);
    SetPagesAt(slots, a / PAGE, 2, Onto(chips, r, PAGE * 2 * v, a), j);
  }

  /** It reads the byte at bank 0 and offsets in the first page, and nothing of the chip
      anywhere else. */
  lemma FourOnTwo(chips: seq<Chip>, slots: seq<Slot>, memory: seq<seq<Byte>>, r: nat, a: Addr, v: Word, o: nat)
    requires Table(slots) && r < |chips| == |memory| && Window(2, a) && o < PAGE * 2
    requires chips[r].size == PAGE == |memory[r]| && chips[r].present
    ensures ReadAt(SetBank(chips, slots, 2, r, a, v), memory, a + o)
         == if v == 0 && o < PAGE then Some(memory[r][o]) else None
  {
    hide SetBank;
    FourSlots(chips, slots, r, a, v, (a + o) / PAGE);
  }

  /** Its first page leaves the chip exactly for a bank other than 0, its second always. */
  lemma FourLeaves(chips: seq<Chip>, slots: seq<Slot>, r: nat, a: Addr, v: Word)
    requires Table(slots) && r < |chips| && Window(2, a) && chips[r].size == PAGE && chips[r].present
    ensures Inside(chips, SetBank(chips, slots, 2, r, a, v)[a / PAGE], a / PAGE) <==> v == 0
    ensures !Inside(chips, SetBank(chips, slots, 2, r, a, v)[a / PAGE + 1], a / PAGE + 1)
  {
    hide SetBank;
    FourSlots(chips, slots, r, a, v, a / PAGE);
    FourSlots(chips, slots, r, a, v, a / PAGE + 1);
  }

  // Runs.

  datatype Action = Bank(pages: nat, chip: nat, at: Addr, bank: Word) | Write(addr: Addr, value: Byte)

  datatype State = State(slots: seq<Slot>, memory: seq<seq<Byte>>)

  /** Every page mapped lies in its chip, and the chips have the bytes they are registered with. */
  predicate Sound(chips: seq<Chip>, s: State)
  {
    && Table(s.slots) && |s.memory| == |chips| && AllInside(chips, s.slots)
    && forall r :: 0 <= r < |chips| ==> |s.memory[r]| == chips[r].size
  }

  /** The chip is one the bank functions are made for. */
  ghost predicate Fits(c: Chip, n: nat)
  {
    exists bits: nat :: Fitting(c, n, bits)
  }

  ghost predicate Allowed(chips: seq<Chip>, a: Action)
  {
    a.Bank? ==> a.chip < |chips| && Window(a.pages, a.at) && Fits(chips[a.chip], a.pages)
  }

  /** The place a write to `a` goes to: chip and byte. */
  function Place(slots: seq<Slot>, a: Addr): (nat, int)
    requires Table(slots) && slots[a / PAGE].page.Some?
  {
    var p := slots[a / PAGE].page.value;
    (p.chip, p.base + a)
  }

  lemma PlaceInside(chips: seq<Chip>, slots: seq<Slot>, a: Addr)
    requires Table(slots) && AllInside(chips, slots) && slots[a / PAGE].page.Some?
    ensures var (c, i) := Place(slots, a); c < |chips| && 0 <= i < chips[c].size
  {
    assert Inside(chips, slots[a / PAGE], a / PAGE);
    assert a == PAGE * (a / PAGE) + a % PAGE;
  }

  /** CartBW: a write to a RAM page goes to exactly its place. */
  function WriteAt(chips: seq<Chip>, s: State, a: Addr, value: Byte): (memory: seq<seq<Byte>>)
    requires Sound(chips, s)
    ensures |memory| == |s.memory| && forall r :: 0 <= r < |chips| ==> |memory[r]| == chips[r].size
  {
    if s.slots[a / PAGE].ram && s.slots[a / PAGE].page.Some? then
      PlaceInside(chips, s.slots, a);
      var (c, i) := Place(s.slots, a);
      var bytes: seq<Byte> := s.memory[c][i := value];
      s.memory[c := bytes]
    else s.memory
  }

  /** What a write stores in a RAM page is read back there. */
  lemma WriteReads(chips: seq<Chip>, s: State, a: Addr, value: Byte)
    requires Sound(chips, s) && s.slots[a / PAGE].ram && s.slots[a / PAGE].page.Some?
    ensures ReadAt(s.slots, WriteAt(chips, s, a, value), a) == Some(value)
  {
    PlaceInside(chips, s.slots, a);
  }

  /** A byte written to an address of a bank of RAM is stored at its place, counted round the
      chip, and nowhere else. */
  lemma BankWrites(chips: seq<Chip>, s: State, n: nat, r: nat, a: Addr, v: Word, bits: nat, o: nat, value: Byte)
    requires Sound(chips, s) && r < |chips| && Window(n, a) && Fitting(chips[r], n, bits)
    requires chips[r].present && chips[r].ram && o < PAGE * n
    ensures chips[r].size > 0 && Sound(chips, s.(slots := SetBank(chips, s.slots, n, r, a, v)))
    ensures var s', at := s.(slots := SetBank(chips, s.slots, n, r, a, v)), (v * (PAGE * n) + o) % chips[r].size;
      var bytes: seq<Byte> := s.memory[r][at := value];
      WriteAt(chips, s', a + o, value) == s.memory[r := bytes]
  {
    hide Pow2, SetBank, AllInside;
    var i, rest, m2 := o / PAGE, o % PAGE, Pow2(bits - 11);
    BankInside(chips, s.slots, n, r, a, v, bits);
    BankPage(chips, s.slots, n, r, a, v, bits, i);
    BankPlace(v * n + i, m2, PAGE, rest);
    BytePlace(v, n, o);
    assert (a + o) / PAGE == a / PAGE + i;
    assert Place(SetBank(chips, s.slots, n, r, a, v), a + o) == (r, PAGE * ((v * n + i) % m2) + rest);
  }

  /** A write to a page that is not RAM changes nothing. */
  lemma OtherwiseKept(chips: seq<Chip>, s: State, a: Addr, value: Byte)
    requires Sound(chips, s) && (!s.slots[a / PAGE].ram || s.slots[a / PAGE].page.None?)
    ensures WriteAt(chips, s, a, value) == s.memory
  {
  }

  ghost function Act(chips: seq<Chip>, s: State, a: Action): (s': State)
    requires Sound(chips, s) && Allowed(chips, a)
    ensures Sound(chips, s')
  {
    match a
    case Bank(n, r, at, v) =>
      var bits: nat :| Fitting(chips[r], n, bits);
      BankInside(chips, s.slots, n, r, at, v, bits);
      s.(slots := SetBank(chips, s.slots, n, r, at, v))
    case Write(addr, value) => s.(memory := WriteAt(chips, s, addr, value))
  }

  /** After a bank action its bank is read, and after a write to RAM the byte written. */
  lemma ActReads(chips: seq<Chip>, s: State, n: nat, r: nat, a: Addr, v: Word, o: nat, value: Byte)
    requires Sound(chips, s) && Allowed(chips, Bank(n, r, a, v)) && chips[r].present && o < PAGE * n
    ensures chips[r].size > 0
    ensures var s', at := Act(chips, s, Bank(n, r, a, v)), (v * (PAGE * n) + o) % chips[r].size;
      && ReadAt(s'.slots, s'.memory, a + o) == Some(s.memory[r][at])
      && ReadAt(s'.slots, Act(chips, s', Write(a + o, value)).memory, a + o)
         == Some(if chips[r].ram then value else s.memory[r][at])
  {
    hide Pow2, SetBank, AllInside, Onto;
    var bits: nat :| Fitting(chips[r], n, bits);
    var s' := Act(chips, s, Bank(n, r, a, v));
    BankReads(chips, s.slots, s.memory, n, r, a, v, bits, o);
    BankMarks(chips, s.slots, n, r, a, v, bits, o);
    if chips[r].ram {
      WriteReads(chips, s', a + o, value);
    } else {
      OtherwiseKept(chips, s', a + o, value);
    }
  }

  lemma BankMarks(chips: seq<Chip>, slots: seq<Slot>, n: nat, r: nat, a: Addr, v: Word, bits: nat, o: nat)
    requires Table(slots) && r < |chips| && Window(n, a) && Fitting(chips[r], n, bits) && chips[r].present && o < PAGE * n
    ensures var s := SetBank(chips, slots, n, r, a, v)[(a + o) / PAGE]; s.page.Some? && s.ram == chips[r].ram
  {
    hide Pow2, SetBank;
    BankPage(chips, slots, n, r, a, v, bits, o / PAGE);
    assert (a + o) / PAGE == a / PAGE + o / PAGE;
  }

  ghost function Acts(chips: seq<Chip>, s: State, actions: seq<Action>): (s': State)
    requires Sound(chips, s) && forall i :: 0 <= i < |actions| ==> Allowed(chips, actions[i])
    ensures Sound(chips, s')
    decreases |actions|
  {
    if actions == [] then s else Acts(chips, Act(chips, s, actions[0]), actions[1..])
  }

  predicate RamOnly(chips: seq<Chip>, s: Slot)
  {
    s.ram && s.page.Some? ==> s.page.value.chip < |chips| && chips[s.page.value.chip].ram
  }

  /** A page that may be written lies in a chip registered as RAM. */
  predicate OnlyRam(chips: seq<Chip>, slots: seq<Slot>)
  {
    forall j :: 0 <= j < |slots| ==> RamOnly(chips, slots[j])
  }

  lemma BankOnlyRam(chips: seq<Chip>, slots: seq<Slot>, n: nat, r: nat, a: Addr, v: Word)
    requires Table(slots) && r < |chips| && Window(n, a) && OnlyRam(chips, slots)
    ensures OnlyRam(chips, SetBank(chips, slots, n, r, a, v))
  {
    hide Masked, SetTwos;
    if n > 2 && chips[r].size < PAGE * n {
      var va := v * n % 0x1_0000_0000;
      forall j | 0 <= j < 32 ensures RamOnly(chips, SetTwos(chips, slots, r, a, va, 0, n)[j]) {
        SetTwosAt(chips, slots, r, a, va, 0, n, j);
      }
    }
  }

  /** In every run of bank switches and writes, each write goes to its place inside its chip
      and no chip registered as ROM ever changes. */
  lemma {:induction false} RomKept(chips: seq<Chip>, s: State, actions: seq<Action>, r: nat)
    requires Sound(chips, s) && forall i :: 0 <= i < |actions| ==> Allowed(chips, actions[i])
    requires OnlyRam(chips, s.slots) && r < |chips| && !chips[r].ram
    ensures Acts(chips, s, actions).memory[r] == s.memory[r]
    ensures Sound(chips, Acts(chips, s, actions)) && OnlyRam(chips, Acts(chips, s, actions).slots)
    decreases |actions|
  {
    hide SetBank, Masked, Sound, Allowed, OnlyRam, Act;
    if actions != [] {
      ActKeepsRom(chips, s, actions[0], r);
      RomKept(chips, Act(chips, s, actions[0]), actions[1..], r);
    }
  }

  lemma ActKeepsRom(chips: seq<Chip>, s: State, a: Action, r: nat)
    requires Sound(chips, s) && Allowed(chips, a) && OnlyRam(chips, s.slots) && r < |chips| && !chips[r].ram
    ensures Act(chips, s, a).memory[r] == s.memory[r] && OnlyRam(chips, Act(chips, s, a).slots)
  {
    hide SetBank, Masked, AllInside, Fits;
    if a.Bank? {
      BankOnlyRam(chips, s.slots, a.pages, a.chip, a.at, a.bank);
    }
  }

  // The tables in place.

  class Cartridge {
    const chips: seq<Chip>
    const slots: array<Slot>
    var memory: seq<seq<Byte>>

    ghost predicate Valid()
    {
      slots.Length == 32
    }

    /** CartBROB. */
    method Read(a: Addr) returns (value: Option<Byte>)
      requires Valid() && Sound(chips, State(slots[..], memory))
      ensures value == ReadAt(slots[..], memory, a)
    {
      hide Inside;
      var page := slots[a / PAGE].page;
      if page == None {
        return None;
      }
      PlaceInside(chips, slots[..], a);
      value := Some(memory[page.value.chip][page.value.base + a]);
    }

    /** CartBW. */
    method Write(a: Addr, value: Byte)
      requires Valid() && Sound(chips, State(slots[..], memory))
      modifies this`memory
      ensures memory == WriteAt(chips, State(slots[..], old(memory)), a, value)
      ensures Sound(chips, State(slots[..], memory))
    {
      hide Inside;
      if slots[a / PAGE].ram && slots[a / PAGE].page.Some? {
        PlaceInside(chips, slots[..], a);
        var p := slots[a / PAGE].page.value;
        var bytes: seq<Byte> := memory[p.chip][p.base + a := value];
        memory := memory[p.chip := bytes];
      }
    }

    /** setpageptr, for a place in a chip. */
    method SetPagePointer(n: nat, a: Addr, s: Slot)
      requires Valid() && Window(n, a)
      modifies slots
      ensures slots[..] == SetPages(old(slots[..]), a / PAGE, n, s)
    {
      var first := a / PAGE;
      var x := n - 1;
      while x >= 0
        invariant -1 <= x < n
        invariant forall j :: 0 <= j < 32 ==> slots[j] == if first + x < j < first + n then s else old(slots[j])
      {
        slots[first + x] := s;
        x := x - 1;
      }
    }

    method SetProgram(n: nat, r: nat, a: Addr, v: Word)
      requires Valid() && r < |chips| && Window(n, a)
      modifies slots
      ensures slots[..] == SetBank(chips, old(slots[..]), n, r, a, v)
    {
      hide Masked, SetPages;
      if n <= 2 || chips[r].size >= PAGE * n {
        var slot := Slot(None, false);
        if chips[r].present {
          slot := Slot(Some(Pointer(r, Masked(v, chips[r].size, n) * (PAGE * n) - a)), chips[r].ram);
        }
        SetPagePointer(n, a, slot);
      } else {
        var va := v * n % 0x1_0000_0000;
        for x := 0 to n
          invariant SetTwos(chips, slots[..], r, a, va, x, n) == SetTwos(chips, old(slots[..]), r, a, va, 0, n)
        {
          var bank := Masked((va + x) % 0x1_0000_0000, chips[r].size, 1);
          assert (a + PAGE * x) / PAGE == a / PAGE + x;
          var slot := Slot(None, false);
          if chips[r].present {
            slot := Slot(Some(Pointer(r, bank * PAGE - (a + PAGE * x))), chips[r].ram);
          }
          SetPagePointer(1, a + PAGE * x, slot);
        }
      }
    }
  }
}
