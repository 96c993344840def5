/** The scheduler of the threads program: tasks in a ring, dealt out to the processors by their
    number, switched on every interrupt, sharing one spin lock. */
module Scheduler {
  import opened Basics
  import opened Bits

  /** Where a task stands towards the lock. */
  datatype Place = Outside | Waiting | Inside

  datatype Context = Context(place: Place, rest: int)

  /** What each processor runs and what is saved for each task. */
  datatype Kernel = Kernel(current: seq<Option<nat>>, context: seq<Context>)

  // The ring search.

  /** The first task from `j` on that belongs to processor `c`; past the last it is task `c`. */
  function Scan(n: nat, p: nat, c: nat, j: nat): (t: nat)
    requires c < p && c < n && j <= n
    ensures t < n && t % p == c
    decreases n - j
  {
    ModSmall(c, p);
    if j == n then c else if j % p == c then j else Scan(n, p, c, j + 1)
  }

  lemma ModSmall(c: nat, p: nat)
    requires c < p
    ensures c % p == c
  {
  }

  lemma OwnNumber(n: nat, p: nat, c: nat, t: nat)
    requires t < n && c < p && t % p == c
    ensures c < n
  {
    assert t == t / p * p + t % p;
    assert t / p * p >= 0;
  }

  /** There is a task for a processor exactly when its own number is one. */
  lemma SomeTask(n: nat, p: nat, c: nat)
    requires c < p
    ensures (exists t: nat :: t < n && t % p == c) <==> c < n
  {
    ModSmall(c, p);
    if t: nat :| t < n && t % p == c {
      OwnNumber(n, p, c, t);
    }
  }

  /** The task `k` steps around the ring from `i`. */
  function Walk(n: nat, i: nat, k: nat): (j: nat)
    requires i < n
    ensures j < n
  {
    if k == 0 then i else After(n, Walk(n, i, k - 1))
  }

  lemma AfterNext(n: nat, j: nat)
    requires j < n
    ensures After(n, j) == if j + 1 == n then 0 else j + 1
  {
    ModSmall(if j + 1 == n then 0 else j + 1, n);
  }

  /** From task `i` it is straight on to task `i + k`, and by the start to task `c`. */
  lemma {:induction false} WalkOn(n: nat, i: nat, k: nat)
    requires i < n
    ensures i + k < n ==> Walk(n, i, k) == i + k
    ensures n <= i + k < 2 * n ==> Walk(n, i, k) == i + k - n
  {
    hide After;
    if k > 0 {
      WalkOn(n, i, k - 1);
      AfterNext(n, Walk(n, i, k - 1));
    }
  }

  /** The ring search of a processor comes to an end exactly when its number is below the
      number of tasks; otherwise it goes around for ever. */
  lemma SearchEnds(n: nat, p: nat, c: nat, i: nat)
    requires c < p && i < n
    ensures (exists k: nat :: k > 0 && Walk(n, i, k) % p == c) <==> c < n
  {
    hide Walk;
    if c < n {
      WalkOn(n, i, n - i + c);
      ModSmall(c, p);
      assert n - i + c > 0 && Walk(n, i, n - i + c) == c;
    } else if k: nat :| k > 0 && Walk(n, i, k) % p == c {
      OwnNumber(n, p, c, Walk(n, i, k));
    }
  }

  /** Wrapping around, the search passes no other task of the processor. */
  lemma {:induction false} ScanFromStart(n: nat, p: nat, c: nat, j: nat)
    requires c < p && c < n && j <= c
    ensures Scan(n, p, c, j) == c
    decreases c - j
  {
    ModSmall(j, p);
    if j < c {
      ScanFromStart(n, p, c, j + 1);
    }
  }

  // The tasks of one processor.

  function Member(p: nat, c: nat, q: nat): nat
  {
    p * q + c
  }

  lemma MemberMod(p: nat, c: nat, q: nat)
    requires c < p
    ensures Member(p, c, q) % p == c && Member(p, c, q) / p == q
  {
    DivModUnique(Member(p, c, q), p, q, c);
  }

  lemma BetweenMembers(p: nat, c: nat, q: nat, r: nat)
    requires c < p && 0 < r < p
    ensures (Member(p, c, q) + r) % p != c
  {
    if c + r < p {
      DivModUnique(Member(p, c, q) + r, p, q, c + r);
    } else {
      assert p * (q + 1) == p * q + p;
      DivModUnique(Member(p, c, q) + r, p, q + 1, c + r - p);
    }
  }

  /** How many tasks processor `c` has. */
  function Share(n: nat, p: nat, c: nat): (k: nat)
    requires c < p && c < n
    ensures k > 0
  {
    (n - 1 - c) / p + 1
  }

  lemma ShareBounds(n: nat, p: nat, c: nat, q: nat)
    requires c < p && c < n
    ensures Member(p, c, q) < n <==> q < Share(n, p, c)
  {
    var d := (n - 1 - c) / p;
    assert n - 1 - c == p * d + (n - 1 - c) % p;
    if q <= d {
      assert p * q <= p * d by { MulMono(p, q, d); }
    } else {
      assert p * q >= p * d + p by { MulMono(p, d + 1, q); }
    }
  }

  lemma MulMono(p: nat, a: nat, b: nat)
    requires a <= b
    ensures p * a <= p * b && p * (a + 1) == p * a + p
  {
  }

  lemma {:induction false} ScanGap(n: nat, p: nat, c: nat, q: nat, r: nat)
    requires c < p && c < n && 0 < r <= p && Member(p, c, q) + r <= n
    ensures Scan(n, p, c, Member(p, c, q) + r) == if Member(p, c, q + 1) < n then Member(p, c, q + 1) else c
    decreases p - r
  {
    var j := Member(p, c, q) + r;
    MulMono(p, q, q + 1);
    if r == p {
      MemberMod(p, c, q + 1);
    } else {
      BetweenMembers(p, c, q, r);
      if j < n {
        ScanGap(n, p, c, q, r + 1);
      }
    }
  }

  /** The search goes through the processor's tasks in turn. */
  lemma ScanNext(n: nat, p: nat, c: nat, q: nat)
    requires c < p && c < n && q < Share(n, p, c)
    ensures Member(p, c, q) < n
    ensures Scan(n, p, c, Member(p, c, q) + 1) == Member(p, c, (q + 1) % Share(n, p, c))
  {
    hide Member, Share, Scan;
    ShareBounds(n, p, c, q);
    ShareBounds(n, p, c, q + 1);
    ScanGap(n, p, c, q, 1);
    if q + 1 < Share(n, p, c) {
      ModSmall(q + 1, Share(n, p, c));
    } else {
      FirstMember(p, c, Share(n, p, c));
    }
  }

  lemma FirstMember(p: nat, c: nat, k: nat)
    requires k > 0
    ensures Member(p, c, k % k) == c
  {
  }

  // Interrupts.

  predicate Fits(n: nat, p: nat, k: Kernel)
  {
    && p <= n && |k.current| == p && |k.context| == n
    && forall c :: 0 <= c < p && k.current[c].Some? ==> k.current[c].value < n && k.current[c].value % p == c
  }

  /** The task an interrupt on `c` comes back to, seen from the task interrupted. */
  function Chosen(n: nat, p: nat, current: Option<nat>, c: nat): (t: nat)
    requires p <= n && c < p && (current.Some? ==> current.value < n)
    ensures t < n && t % p == c
  {
    Scan(n, p, c, if current.Some? then current.value + 1 else 1)
  }

  /** Saves the interrupted task and moves on; the first interrupt saves nothing. */
  function OnInterrupt(n: nat, p: nat, k: Kernel, c: nat, interrupted: Context): (k': Kernel)
    requires Fits(n, p, k) && c < p
    ensures Fits(n, p, k')
  {
    Kernel(k.current[c := Some(Chosen(n, p, k.current[c], c))],
           if k.current[c].Some? then k.context[k.current[c].value := interrupted] else k.context)
  }

  lemma FitsHere(n: nat, p: nat, k: Kernel, c: nat)
    requires Fits(n, p, k) && c < p
    ensures p <= n && |k.current| == p && |k.context| == n
    ensures k.current[c].Some? ==> k.current[c].value < n
  {
  }

  function After(n: nat, i: nat): (j: nat)
    requires n > 0
    ensures j < n
  {
    (i + 1) % n
  }

  predicate Belongs(p: nat, c: nat, t: nat)
    requires c < p
  {
    t % p == c
  }

  /** One step around the ring keeps the search's goal; before the goal it does not wrap. */
  lemma Wraps(n: nat, p: nat, c: nat, j: nat) returns (over: bool)
    requires c < p <= n && j < n
    ensures over ==> After(n, j) == 0
    ensures !over ==> After(n, j) == j + 1
    ensures Scan(n, p, c, After(n, j)) == Scan(n, p, c, j + 1)
    ensures !Belongs(p, c, j) ==> Scan(n, p, c, j) == Scan(n, p, c, j + 1) && (j < c ==> !over)
    ensures Belongs(p, c, j) ==> Scan(n, p, c, j) == j
    ensures !Belongs(p, c, j) ==> j != c
  {
    ModSmall(c, p);
    over := j + 1 == n;
    ScanFromStart(n, p, c, 0);
    if !over {
      ModSmall(j + 1, n);
    }
  }

  /** The tasks and processors as `main` lays them out, updated in place. */
  class Ring {
    const next: array<nat>
    const currents: array<Option<nat>>
    const contexts: array<Context>

    ghost predicate Linked()
      reads this, next
    {
      && 0 < currents.Length <= next.Length == contexts.Length
      && forall i :: 0 <= i < next.Length ==> next[i] == After(next.Length, i)
    }

    ghost predicate Valid()
      reads this, next, currents, contexts
    {
      && Linked()
      && Fits(next.Length, currents.Length, State())
    }

    ghost function State(): Kernel
      reads this, currents, contexts
    {
      Kernel(currents[..], contexts[..])
    }

    constructor (n: nat, p: nat, entry: Context)
      requires 0 < p <= n
      ensures Valid() && fresh(next) && fresh(currents) && fresh(contexts)
      ensures next.Length == n && currents.Length == p
      ensures State() == Kernel(seq(p, _ => None), seq(n, _ => entry))
    {
      next := new nat[n](i => if n > 0 then After(n, i) else 0);
      currents := new Option<nat>[p](_ => None);
      contexts := new Context[n](_ => entry);
    }

    /** Around the ring from task `i` to the next task of processor `c`. */
    method Search(c: nat, i: nat) returns (j: nat)
      requires Linked() && c < currents.Length && i < next.Length
      ensures j == Scan(next.Length, currents.Length, c, i + 1)
    {
      hide After, Belongs, Scan;
      var n, p := next.Length, currents.Length;
      ghost var chosen := Scan(n, p, c, i + 1);
      ghost var wrapped := Wraps(n, p, c, i);
      j := next[i];
      ghost var over := Wraps(n, p, c, j);
      while !Belongs(p, c, j)
        invariant j < n && (wrapped ==> j <= c) && Scan(n, p, c, j) == chosen
        invariant Belongs(p, c, j) ==> Scan(n, p, c, j) == j
        decreases !wrapped, n - j
      {
        over := Wraps(n, p, c, j);
        wrapped := wrapped || over;
        j := next[j];
        over := Wraps(n, p, c, j);
      }
    }

    method Interrupt(c: nat, interrupted: Context) returns (resumed: Context)
      requires Valid() && c < currents.Length
      modifies currents, contexts
      ensures Valid()
      ensures State() == OnInterrupt(next.Length, currents.Length, old(State()), c, interrupted)
      ensures State().current[c].Some? && resumed == State().context[State().current[c].value]
    {
      hide Scan, After, Fits;
      ghost var k := State();
      FitsHere(next.Length, currents.Length, k, c);
      var i := 0;
      if currents[c].Some? {
        i := currents[c].value;
        contexts[i] := interrupted;
      }
      var j := Search(c, i);
      currents[c] := Some(j);
      resumed := contexts[j];
      assert State() == OnInterrupt(next.Length, currents.Length, k, c, interrupted);
    }
  }

  // Runs: interrupts on any processors in any order.

  datatype Event = Event(cpu: nat, context: Context)

  predicate Proper(p: nat, es: seq<Event>)
  {
    forall i :: 0 <= i < |es| ==> es[i].cpu < p
  }

  function Init(n: nat, p: nat, entries: seq<Context>): Kernel
  {
    Kernel(seq(p, _ => None), entries)
  }

  function RunAll(n: nat, p: nat, entries: seq<Context>, es: seq<Event>): (k: Kernel)
    requires 0 < p <= n && |entries| == n && Proper(p, es)
    ensures Fits(n, p, k)
    decreases |es|
  {
    if es == [] then Init(n, p, entries)
    else
      var e := es[|es| - 1];
      OnInterrupt(n, p, RunAll(n, p, entries, es[..|es| - 1]), e.cpu, e.context)
  }

  /** The contexts the interrupts of processor `c` came with. */
  function Seen(es: seq<Event>, c: nat): seq<Context>
    decreases |es|
  {
    if es == [] then []
    else
      var e, before := es[|es| - 1], Seen(es[..|es| - 1], c);
      if e.cpu == c then before + [e.context] else before
  }

  /** Which of its tasks processor `c` runs after `k` interrupts. The search starts behind
      task 0, so processor 0 begins with its second task. */
  function Position(n: nat, p: nat, c: nat, k: nat): (q: nat)
    requires c < p && c < n && k > 0
    ensures q < Share(n, p, c)
  {
    (k - 1 + if c == 0 then 1 else 0) % Share(n, p, c)
  }

  lemma Rotates(x: nat, m: nat)
    requires m > 0
    ensures (x % m + 1) % m == (x + 1) % m && (x + m) % m == x % m
  {
    var q, r := x / m, x % m;
    assert x == q * m + r;
    DivModUnique(x + m, m, q + 1, r);
    if r + 1 < m {
      DivModUnique(x + 1, m, q, r + 1);
      ModSmall(r + 1, m);
    } else {
      DivModUnique(x + 1, m, q + 1, 0);
      assert m % m == 0 by { DivModUnique(m, m, 1, 0); }
    }
  }

  lemma Differs(x: nat, d: nat, m: nat)
    requires 0 < d < m
    ensures (x + d) % m != x % m
  {
    var q, r := x / m, x % m;
    assert x == q * m + r;
    if r + d < m {
      DivModUnique(x + d, m, q, r + d);
    } else {
      DivModUnique(x + d, m, q + 1, r + d - m);
    }
  }

  /** The processor serves its tasks in turn, however the interrupts interleave. */
  lemma {:induction false} RoundRobin(n: nat, p: nat, entries: seq<Context>, es: seq<Event>, c: nat)
    requires 0 < p <= n && |entries| == n && Proper(p, es) && c < p
    ensures RunAll(n, p, entries, es).current[c] ==
      if Seen(es, c) == [] then None else Some(Member(p, c, Position(n, p, c, |Seen(es, c)|)))
    decreases |es|
  {
    hide Member, Share, Scan, Position;
    if es != [] {
      var before := es[..|es| - 1];
      RoundRobin(n, p, entries, before, c);
      if es[|es| - 1].cpu == c {
        NextPosition(n, p, c, |Seen(before, c)|);
      }
    }
  }

  lemma NextPosition(n: nat, p: nat, c: nat, k: nat)
    requires c < p && c < n
    ensures k > 0 ==> Member(p, c, Position(n, p, c, k)) < n
    ensures Member(p, c, Position(n, p, c, k + 1)) ==
      Scan(n, p, c, if k > 0 then Member(p, c, Position(n, p, c, k)) + 1 else 1)
  {
    hide Member, Share, Scan;
    if k > 0 {
      ScanNext(n, p, c, Position(n, p, c, k));
      Rotates(k - 1 + if c == 0 then 1 else 0, Share(n, p, c));
    } else if c == 0 {
      FirstMember(p, c, 1);
      ScanNext(n, p, c, 0);
    } else {
      FirstMember(p, c, Share(n, p, c));
      ModSmall(0, Share(n, p, c));
      ModZero(Share(n, p, c));
      ScanFromStart(n, p, c, 1);
    }
  }

  lemma ModZero(m: nat)
    requires m > 0
    ensures m % m == 0
  {
  }

  /** The positions of as many interrupts in a row as the processor has tasks are all of them. */
  lemma EveryPosition(n: nat, p: nat, c: nat, k: nat, q: nat) returns (d: nat)
    requires c < p && c < n && q < Share(n, p, c)
    ensures 1 <= d <= Share(n, p, c) && Position(n, p, c, k + d) == q
  {
    hide Share;
    var m, x := Share(n, p, c), k + if c == 0 then 1 else 0;
    var r := x % m;
    assert x == x / m * m + r;
    if q >= r {
      d := q - r + 1;
      DivModUnique(x + (q - r), m, x / m, q);
    } else {
      d := q + m - r + 1;
      DivModUnique(x + (q + m - r), m, x / m + 1, q);
    }
  }

  lemma {:induction false} SeenAppend(es: seq<Event>, more: seq<Event>, c: nat)
    ensures Seen(es + more, c) == Seen(es, c) + Seen(more, c)
    decreases |more|
  {
    if more == [] {
      assert es + more == es;
    } else {
      assert (es + more)[..|es + more| - 1] == es + more[..|more| - 1];
      SeenAppend(es, more[..|more| - 1], c);
    }
  }

  /** The events up to the `d`-th interrupt of processor `c`. */
  lemma {:induction false} UpTo(es: seq<Event>, c: nat, d: nat) returns (i: nat)
    requires d <= |Seen(es, c)|
    ensures i <= |es| && |Seen(es[..i], c)| == d
    decreases |es|
  {
    if d == |Seen(es, c)| {
      i := |es|;
      assert es[..i] == es;
    } else {
      var before := es[..|es| - 1];
      i := UpTo(before, c, d);
      assert before[..i] == es[..i];
    }
  }

  /** However a run goes on, by the time a processor has had as many further interrupts as it
      has tasks each of them has run. */
  lemma EveryTaskSoon(n: nat, p: nat, entries: seq<Context>, es: seq<Event>, more: seq<Event>, c: nat, q: nat)
    returns (i: nat)
    requires 0 < p <= n && |entries| == n && Proper(p, es) && Proper(p, more) && c < p
    requires q < Share(n, p, c) && |Seen(more, c)| >= Share(n, p, c)
    ensures 0 < i <= |more| && RunAll(n, p, entries, es + more[..i]).current[c] == Some(Member(p, c, q))
  {
    hide Member, Share, Scan, Position;
    var k := |Seen(es, c)|;
    var d := EveryPosition(n, p, c, k, q);
    i := UpTo(more, c, d);
    SeenAppend(es, more[..i], c);
    RoundRobin(n, p, entries, es + more[..i], c);
  }

  /** The interrupt, counted from 1, that last took the processor from its task `q`; 0 for none. */
  function LastLeft(n: nat, p: nat, c: nat, k: nat, q: nat): (l: nat)
    requires c < p && c < n
    ensures l <= k
    decreases k
  {
    if k <= 1 then 0 else if Position(n, p, c, k - 1) == q then k else LastLeft(n, p, c, k - 1, q)
  }

  /** What is saved for a task: what the last interrupt that took it away came with. */
  lemma {:induction false} SavedContext(n: nat, p: nat, entries: seq<Context>, es: seq<Event>, c: nat, q: nat)
    requires 0 < p <= n && |entries| == n && Proper(p, es) && c < p && Member(p, c, q) < n
    ensures var t, seen := Member(p, c, q), Seen(es, c);
      var l := LastLeft(n, p, c, |seen|, q);
      RunAll(n, p, entries, es).context[t] == if l == 0 then entries[t] else seen[l - 1]
    decreases |es|
  {
    hide Member, Share, Scan, Position;
    if es != [] {
      var before, e := es[..|es| - 1], es[|es| - 1];
      SavedContext(n, p, entries, before, c, q);
      RoundRobin(n, p, entries, before, e.cpu);
      MemberMod(p, c, q);
      if e.cpu == c && Seen(before, c) != [] {
        MemberMod(p, c, Position(n, p, c, |Seen(before, c)|));
      }
    }
  }

  lemma {:induction false} LastLeftTurn(n: nat, p: nat, c: nat, k: nat, d: nat)
    requires c < p && c < n && 0 <= d < Share(n, p, c) && d < k
    ensures LastLeft(n, p, c, k - d, Position(n, p, c, k)) ==
      if k > Share(n, p, c) then k - Share(n, p, c) + 1 else 0
    decreases k - d
  {
    hide Share;
    var m, x := Share(n, p, c), k - 1 + if c == 0 then 1 else 0;
    if k - d > 1 {
      if d + 1 < m {
        Differs(x - (d + 1), d + 1, m);
        LastLeftTurn(n, p, c, k, d + 1);
      } else {
        Rotates(x - m, m);
      }
    }
  }

  /** A resumed task gets what it was last interrupted with, which is one full turn of its
      processor ago, or what it was created with if it has not run before. */
  lemma ResumesWhereLeft(n: nat, p: nat, entries: seq<Context>, es: seq<Event>, c: nat)
    requires 0 < p <= n && |entries| == n && Proper(p, es) && c < p && Seen(es, c) != []
    ensures var k, seen := RunAll(n, p, entries, es), Seen(es, c);
      && k.current[c].Some?
      && k.context[k.current[c].value] ==
           if |seen| > Share(n, p, c) then seen[|seen| - Share(n, p, c)] else entries[k.current[c].value]
  {
    hide Member, Share, Position, Scan, Seen, RunAll, Fits, LastLeft;
    var k := |Seen(es, c)|;
    RoundRobin(n, p, entries, es, c);
    NextPosition(n, p, c, k);
    SavedContext(n, p, entries, es, c, Position(n, p, c, k));
    LastLeftTurn(n, p, c, k, 0);
  }

  // The lock.

  /** The tasks, with the registers of the running ones in the processors. */
  datatype World = World(kernel: Kernel, live: seq<Context>, locked: bool)

  /** An interrupt, or a step of the program: going for the lock, trying it, or letting it go. */
  datatype Action = Tick(cpu: nat) | Ask(cpu: nat) | Try(cpu: nat) | Leave(cpu: nat) | Compute(cpu: nat, rest: int)

  predicate Sound(n: nat, p: nat, w: World)
  {
    Fits(n, p, w.kernel) && |w.live| == p
  }

  /** The context of a task, in its processor if it runs there. */
  function Of(n: nat, p: nat, w: World, t: nat): Context
    requires Sound(n, p, w) && 0 < p && t < n
  {
    if w.kernel.current[t % p] == Some(t) then w.live[t % p] else w.kernel.context[t]
  }

  predicate Enabled(n: nat, p: nat, w: World, a: Action)
    requires Sound(n, p, w)
  {
    && a.cpu < p
    && (!a.Tick? && !a.Compute? ==> w.kernel.current[a.cpu].Some?)
    && (a.Ask? ==> w.live[a.cpu].place == Outside)
    && (a.Try? ==> w.live[a.cpu].place == Waiting)
    && (a.Leave? ==> w.live[a.cpu].place == Inside)
  }

  function Act(n: nat, p: nat, w: World, a: Action): (w': World)
    requires Sound(n, p, w) && Enabled(n, p, w, a)
    ensures Sound(n, p, w')
  {
    var c := a.cpu;
    match a
    case Tick(_) =>
      var k := OnInterrupt(n, p, w.kernel, c, w.live[c]);
      World(k, w.live[c := k.context[k.current[c].value]], w.locked)
    case Ask(_) => w.(live := w.live[c := w.live[c].(place := Waiting)])
    case Try(_) => w.(live := w.live[c := w.live[c].(place := if w.locked then Waiting else Inside)], locked := true)
    case Leave(_) => w.(live := w.live[c := w.live[c].(place := Outside)], locked := false)
    case Compute(_, rest) => w.(live := w.live[c := w.live[c].(rest := rest)])
  }

  /** The lock is taken exactly when some task is inside, and then only one is. */
  ghost predicate Exclusive(n: nat, p: nat, w: World)
    requires Sound(n, p, w) && 0 < p
  {
    && (w.locked <==> exists t: nat :: t < n && Of(n, p, w, t).place == Inside)
    && forall t: nat, u: nat ::
        t < n && u < n && Of(n, p, w, t).place == Inside && Of(n, p, w, u).place == Inside ==> t == u
  }

  /** A task that goes for the lock waits as long as the lock is taken; if it is free the task gets
      in, and letting the lock go leaves everything as it was. */
  lemma LockCycle(n: nat, p: nat, w: World, c: nat)
    requires Sound(n, p, w) && c < p && w.kernel.current[c].Some? && w.live[c].place == Outside
    ensures var w1 := Act(n, p, w, Ask(c));
      && w1 == w.(live := w.live[c := Context(Waiting, w.live[c].rest)])
      && Enabled(n, p, w1, Try(c))
      && var w2 := Act(n, p, w1, Try(c));
      && (w.locked ==> w2 == w1)
      && (!w.locked ==>
            && w2 == World(w.kernel, w.live[c := Context(Inside, w.live[c].rest)], true)
            && Enabled(n, p, w2, Leave(c)) && Act(n, p, w2, Leave(c)) == w)
  {
  }

  /** The rest of a task's context is its own to compute with. */
  lemma Computes(n: nat, p: nat, w: World, c: nat, rest: int)
    requires Sound(n, p, w) && c < p
    ensures Act(n, p, w, Compute(c, rest)) == w.(live := w.live[c := Context(w.live[c].place, rest)])
  {
  }

  /** An interrupt moves contexts about but every task keeps its own. */
  lemma InterruptKeeps(n: nat, p: nat, w: World, c: nat, t: nat)
    requires Sound(n, p, w) && c < p && t < n
    ensures Of(n, p, Act(n, p, w, Tick(c)), t) == Of(n, p, w, t)
  {
    hide Scan;
  }

  /** A step of the program touches the running task alone. */
  lemma StepTouches(n: nat, p: nat, w: World, a: Action, t: nat)
    requires Sound(n, p, w) && Enabled(n, p, w, a) && !a.Tick? && t < n
    ensures Of(n, p, Act(n, p, w, a), t) ==
      if w.kernel.current[a.cpu] == Some(t) then Act(n, p, w, a).live[a.cpu] else Of(n, p, w, t)
  {
  }

  lemma ActExcludes(n: nat, p: nat, w: World, a: Action)
    requires Sound(n, p, w) && Enabled(n, p, w, a) && Exclusive(n, p, w)
    ensures Exclusive(n, p, Act(n, p, w, a))
  {
    hide Of, OnInterrupt;
    var w' := Act(n, p, w, a);
    if a.Tick? {
      forall t: nat | t < n ensures Of(n, p, w', t) == Of(n, p, w, t) {
        InterruptKeeps(n, p, w, a.cpu, t);
      }
    } else {
      forall t: nat | t < n
        ensures Of(n, p, w', t) == if w.kernel.current[a.cpu] == Some(t) then w'.live[a.cpu] else Of(n, p, w, t)
      {
        StepTouches(n, p, w, a, t);
      }
      if w.kernel.current[a.cpu].Some? {
        var t := w.kernel.current[a.cpu].value;
        RunningLive(n, p, w, a.cpu);
        assert Of(n, p, w', t) == w'.live[a.cpu];
      }
    }
  }

  lemma RunningLive(n: nat, p: nat, w: World, c: nat)
    requires Sound(n, p, w) && c < p && w.kernel.current[c].Some?
    ensures Of(n, p, w, w.kernel.current[c].value) == w.live[c]
  {
  }

  function Acts(n: nat, p: nat, w: World, actions: seq<Action>): (w': World)
    requires Sound(n, p, w)
    ensures Sound(n, p, w')
    decreases |actions|
  {
    if actions == [] then w
    else Acts(n, p, if Enabled(n, p, w, actions[0]) then Act(n, p, w, actions[0]) else w, actions[1..])
  }

  /** From the start, through every interleaving of interrupts and steps, one task at most
      holds the lock, and the lock is free when none does. */
  lemma {:induction false} AlwaysExclusive(n: nat, p: nat, w: World, actions: seq<Action>)
    requires Sound(n, p, w) && 0 < p && Exclusive(n, p, w)
    ensures Exclusive(n, p, Acts(n, p, w, actions))
    decreases |actions|
  {
    hide Exclusive, Act, Enabled;
    if actions != [] {
      var a := actions[0];
      if Enabled(n, p, w, a) {
        ActExcludes(n, p, w, a);
        AlwaysExclusive(n, p, Act(n, p, w, a), actions[1..]);
      } else {
        AlwaysExclusive(n, p, w, actions[1..]);
      }
    }
  }

  lemma StartsExclusive(n: nat, p: nat, entries: seq<Context>, boot: seq<Context>)
    requires 0 < p <= n && |entries| == n && |boot| == p
    requires forall t :: 0 <= t < n ==> entries[t].place == Outside
    ensures Sound(n, p, World(Init(n, p, entries), boot, false))
    ensures Exclusive(n, p, World(Init(n, p, entries), boot, false))
  {
  }
}
