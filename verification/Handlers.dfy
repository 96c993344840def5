/** The table of memory handlers, one for each of 64K addresses, kept as an index into the
    handlers in use: sixteen of them with two indexes to a byte, or 256 with one. */
module Handlers {
  import opened Basics
  import opened Bits

  /** A handler is known by a number; 0 does nothing and stands in for a missing one. */
  type Func = nat

  const IDLE: Func := 0

  function Slots(packed: bool): nat
  {
    if packed then 16 else 256
  }

  function Cells(packed: bool): nat
  {
    if packed then 0x8000 else 0x1_0000
  }

  // Two indexes in a byte.

  function GetNibble(b: Byte, odd: bool): Byte
  {
    if odd then b / 16 else b % 16
  }

  /** The mask cleared, the index put in. */
  function SetNibble(b: Byte, odd: bool, i: Byte): (r: Byte)
    requires i < 16
  {
    Pow2Small();
    var mask, moved := if odd then 0xF0 else 0x0F, if odd then 16 * i else i;
    BitOp(Or, 8, BitOp(And, 8, b, 0xFF - mask), moved)
  }

  lemma Nibbles(op: Op, a: Byte, b: Byte)
    ensures BitOp(op, 8, a, b) == BitOp(op, 4, a % 16, b % 16) + 16 * BitOp(op, 4, a / 16, b / 16)
  {
    hide BitOp, High, Low, Up, Pow2;
    BitOpSplit(op, 4, 4, a, b);
    UpMul(BitOp(op, 4, High(a, 4), High(b, 4)), 4);
    HalvesOf(a);
    HalvesOf(b);
    BitOpLow(op, 4, a, b);
    SixteenIs();
  }

  lemma HalvesOf(a: Byte)
    ensures High(a, 4) == a / 16 && Low(a, 4) == a % 16
  {
    hide High, Low, Pow2;
    SixteenIs();
    HighLow(a, 4);
  }

  lemma SixteenIs()
    ensures Pow2(4) == 16 && Pow2(0) == 1
  {
  }

  lemma NibbleOps(x: nat)
    requires x < 16
    ensures BitOp(And, 4, x, 15) == x && BitOp(And, 4, x, 0) == 0
    ensures BitOp(Or, 4, x, 0) == x && BitOp(Or, 4, 0, x) == x
  {
    hide BitOp, Pow2;
    SixteenIs();
    AndMask(4, 4, x);
    AndMask(4, 0, x);
    OrZero(4, x);
    OrDisjoint(4, 4, 0, x);
    HighLow(x, 4);
    UpMul(0, 4);
    LowNone(x);
  }

  lemma LowNone(x: nat)
    ensures Low(x, 0) == 0
  {
  }

  /** Setting one half of a byte leaves the other. */
  lemma SetNibbleHalves(b: Byte, odd: bool, i: Byte)
    requires i < 16
    ensures GetNibble(SetNibble(b, odd, i), odd) == i
    ensures GetNibble(SetNibble(b, odd, i), !odd) == GetNibble(b, !odd)
  {
    hide BitOp;
    Pow2Small();
    NibbleOps(b % 16);
    NibbleOps(b / 16);
    NibbleOps(i);
    if odd {
      Nibbles(And, b, 0x0F);
      var kept := BitOp(And, 8, b, 0x0F);
      assert kept == b % 16;
      Nibbles(Or, kept, 16 * i);
    } else {
      Nibbles(And, b, 0xF0);
      var kept := BitOp(And, 8, b, 0xF0);
      assert kept == 16 * (b / 16);
      Nibbles(Or, kept, i);
    }
  }

  // The index.

  function Entry(packed: bool, index: seq<Byte>, a: Addr): Byte
    requires |index| == Cells(packed)
  {
    if packed then GetNibble(index[a / 2], a % 2 == 1) else index[a]
  }

  function Stored(packed: bool, index: seq<Byte>, a: Addr, i: Byte): (r: seq<Byte>)
    requires |index| == Cells(packed) && i < Slots(packed)
    ensures |r| == |index|
  {
    if packed then index[a / 2 := SetNibble(index[a / 2], a % 2 == 1, i)] else index[a := i]
  }

  /** The neighbour in the same byte keeps its entry. */
  lemma StoredEntry(packed: bool, index: seq<Byte>, a: Addr, i: Byte, b: Addr)
    requires |index| == Cells(packed) && i < Slots(packed)
    ensures Entry(packed, Stored(packed, index, a, i), b) == if a == b then i else Entry(packed, index, b)
  {
    hide GetNibble, SetNibble;
    if packed && a / 2 == b / 2 {
      SetNibbleHalves(index[a / 2], a % 2 == 1, i);
    }
  }

  // The plain table it stands for.

  /** One address or a range gets a handler; a missing one idles. */
  datatype Setting = One(addr: Addr, func: Option<Func>) | Range(start: Addr, end: Addr, func: Option<Func>)

  function Meant(f: Option<Func>): Func
  {
    if f.Some? then f.value else IDLE
  }

  predicate Covers(s: Setting, a: Addr)
  {
    match s
    case One(b, _) => a == b
    case Range(start, end, _) => start <= a <= end
  }

  /** The last handler set for an address. */
  function Last(settings: seq<Setting>, a: Addr): Option<Func>
    decreases |settings|
  {
    if settings == [] then None
    else
      var s := settings[|settings| - 1];
      if Covers(s, a) then Some(Meant(s.func)) else Last(settings[..|settings| - 1], a)
  }

  /** The distinct handlers set, in order of first use. */
  function Distinct(settings: seq<Setting>): seq<Func>
    decreases |settings|
  {
    if settings == [] then []
    else
      var before, f := Distinct(settings[..|settings| - 1]), Meant(settings[|settings| - 1].func);
      if f in before then before else before + [f]
  }

  class Table {
    const packed: bool
    const index: array<Byte>
    const funcs: array<Option<Func>>
    ghost var known: seq<Func>
    ghost var plain: seq<Option<Func>>

    ghost predicate Sized()
      reads this
    {
      index.Length == Cells(packed) && funcs.Length == Slots(packed) && |plain| == 0x1_0000
    }

    /** The handlers fill the slots from the front, each once. */
    ghost predicate Listed()
      requires Sized()
      reads this, funcs
    {
      && |known| <= funcs.Length
      && (forall i :: 0 <= i < |known| ==> funcs[i] == Some(known[i]))
      && (forall i :: |known| <= i < funcs.Length ==> funcs[i] == None)
      && forall i, j :: 0 <= i < j < |known| ==> known[i] != known[j]
    }

    /** An address set has its handler's slot; one never set has slot 0. */
    ghost predicate Indexed()
      requires Sized()
      reads this, index
    {
      forall a: Addr ::
        var i := Entry(packed, index[..], a);
        match plain[a]
        case Some(f) => i < |known| && known[i] == f
        case None => i == 0
    }

    ghost predicate Valid()
      reads this, index, funcs
    {
      Sized() && Listed() && Indexed()
    }

    constructor (packed: bool)
      ensures Valid() && this.packed == packed && known == []
      ensures plain == seq(0x1_0000, _ => None)
      ensures fresh(index) && fresh(funcs)
    {
      this.packed := packed;
      index := new Byte[Cells(packed)](_ => 0);
      funcs := new Option<Func>[Slots(packed)](_ => None);
      known := [];
      plain := seq(0x1_0000, _ => None);
    }

    /** The slot of a handler, taking a free one for a new handler; -1 when none is left. */
    method Register(f: Func) returns (i: int)
      requires Valid()
      modifies `known, funcs
      ensures Valid()
      ensures i == -1 <==> f !in old(known) && |old(known)| == Slots(packed)
      ensures i != -1 ==> 0 <= i < |known| && known[i] == f
      ensures known == if f in old(known) || i == -1 then old(known) else old(known) + [f]
    {
      i := 0;
      while i < funcs.Length
        invariant 0 <= i <= funcs.Length && Valid() && known == old(known) && f !in known[..if i < |known| then i else |known|]
        invariant i <= |known|
      {
        if funcs[i] == None {
          funcs[i] := Some(f);
          known := known + [f];
        }
        if funcs[i] == Some(f) {
          return;
        }
        i := i + 1;
      }
      i := -1;
    }

    method SetIndex(a: Addr, i: Byte)
      requires Sized() && i < Slots(packed)
      modifies index
      ensures index[..] == Stored(packed, old(index[..]), a, i)
    {
      if packed {
        index[a / 2] := SetNibble(index[a / 2], a % 2 == 1, i);
      } else {
        index[a] := i;
      }
    }

    /** The handler of an address: the last one set for it. An address never set shares the
        first handler of all. */
    method Get(a: Addr) returns (f: Option<Func>)
      requires Valid()
      ensures f == if plain[a].Some? then plain[a] else if known == [] then None else Some(known[0])
    {
      var i := if packed then GetNibble(index[a / 2], a % 2 == 1) else index[a];
      assert i == Entry(packed, index[..], a);
      f := funcs[i];
    }

    method SetOne(a: Addr, func: Option<Func>) returns (ok: bool)
      requires Valid()
      modifies this, index, funcs
      ensures Valid() && (ok <==> Meant(func) in old(known) || |old(known)| < Slots(packed))
      ensures ok ==> plain == old(plain)[a := Some(Meant(func))]
      ensures known == if Meant(func) in old(known) || !ok then old(known) else old(known) + [Meant(func)]
    {
      hide Entry, Stored;
      var f := Meant(func);
      var i := Register(f);
      ok := i != -1;
      if ok {
        ghost var before := index[..];
        SetIndex(a, i);
        forall b: Addr ensures Entry(packed, index[..], b) == if b == a then i else Entry(packed, before, b) {
          StoredEntry(packed, before, a, i, b);
        }
        plain := plain[a := Some(f)];
      }
    }

    /** From the last address of the range down. */
    method SetRange(start: Addr, end: Addr, func: Option<Func>) returns (ok: bool)
      requires Valid()
      modifies this, index, funcs
      ensures Valid() && (ok <==> Meant(func) in old(known) || |old(known)| < Slots(packed))
      ensures ok ==> forall a: Addr ::
          plain[a] == if start <= a <= end then Some(Meant(func)) else old(plain)[a]
      ensures known == if Meant(func) in old(known) || !ok then old(known) else old(known) + [Meant(func)]
    {
      hide Entry, Stored;
      var f := Meant(func);
      var i := Register(f);
      if i == -1 {
        ok := false;
        return;
      }
      ok := true;
      var x: int := end;
      while x >= start
        invariant start - 1 <= x <= end || x == end
        invariant Valid() && 0 <= i < |known| && known[i] == f && known == old(known) + if f in old(known) then [] else [f]
        invariant forall a: Addr :: plain[a] == if x < a <= end then Some(f) else old(plain)[a]
      {
        ghost var before := index[..];
        SetIndex(x, i);
        forall a: Addr ensures Entry(packed, index[..], a) == if a == x then i else Entry(packed, before, a) {
          StoredEntry(packed, before, x, i, a);
        }
        plain := plain[x := Some(f)];
        x := x - 1;
      }
    }

    /** A whole set-up on an empty table. It is refused exactly when it names more handlers
        than there are slots; otherwise every address has the handler last set for it. */
    method Configure(settings: seq<Setting>) returns (ok: bool)
      requires Valid() && known == [] && forall a: Addr :: plain[a] == None
      modifies this, index, funcs
      ensures Valid() && (ok <==> |Distinct(settings)| <= Slots(packed))
      ensures ok ==> known == Distinct(settings) && forall a: Addr :: plain[a] == Last(settings, a)
    {
      hide Distinct, Last;
      ok := true;
      DistinctNone();
      assert settings[..0] == [];
      for k := 0 to |settings|
        invariant Valid() && known == Distinct(settings[..k])
        invariant forall a: Addr :: plain[a] == Last(settings[..k], a)
      {
        DistinctStep(settings, k);
        DistinctGrows(settings, k + 1);
        match settings[k] {
          case One(a, f) => ok := SetOne(a, f);
          case Range(start, end, f) => ok := SetRange(start, end, f);
        }
        if !ok {
          return;
        }
        forall a: Addr ensures plain[a] == Last(settings[..k + 1], a) {
          LastStep(settings, k, a);
        }
      }
      assert settings[..|settings|] == settings;
    }
  }

  lemma DistinctNone()
    ensures Distinct([]) == [] && forall a: Addr :: Last([], a) == None
  {
  }

  lemma DistinctStep(settings: seq<Setting>, k: nat)
    requires k < |settings|
    ensures var known, f := Distinct(settings[..k]), Meant(settings[k].func);
      Distinct(settings[..k + 1]) == if f in known then known else known + [f]
  {
    assert settings[..k + 1][..k] == settings[..k];
  }

  lemma LastStep(settings: seq<Setting>, k: nat, a: Addr)
    requires k < |settings|
    ensures Last(settings[..k + 1], a) ==
      if Covers(settings[k], a) then Some(Meant(settings[k].func)) else Last(settings[..k], a)
  {
    assert settings[..k + 1][..k] == settings[..k];
  }

  lemma {:induction false} DistinctGrows(settings: seq<Setting>, k: nat)
    requires k <= |settings|
    ensures |Distinct(settings[..k])| <= |Distinct(settings)|
    decreases |settings|
  {
    if k == |settings| {
      assert settings[..k] == settings;
    } else {
      var before := settings[..|settings| - 1];
      assert before[..k] == settings[..k];
      DistinctGrows(before, k);
    }
  }
}
