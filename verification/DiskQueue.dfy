/**
 DQueue: a two-cell shift buffer driven by the process DQ, with the events `left`, `shift`,
 `comm` and `right` hidden.  It is compared with a first-in first-out queue of two places.
 */
module DiskQueue {
  import opened Wrappers

  /** A request x.y: client and block. */
  datatype Item = Item(cl: nat, blk: int)

  /** A cell before it reads, before its shift, and before it writes. */
  datatype Cell = Hollow | Loaded(x: Item) | Shifted(x: Item)

  /** The process DQ and its continuations. */
  datatype Control =
    | DQ(i: int)
    | Left(i: int, x: Item)    // enq?x done, left!x -> shift -> DQ(i+1)
    | EnqShift(i: int)         // shift -> DQ(i+1)
    | SayEmpty                 // empty -> DQ(0)
    | DeqShift                 // shift -> X(2), from DQ(2)
    | X(i: int)
    | SayNext(i: int, x: Item) // next!x -> DQ(i-1)

  /** DQ with BUFF: `a` is the cell that reads `left`, `b` the one that writes `right`. */
  datatype Queue = Queue(c: Control, a: Cell, b: Cell)

  datatype Event =
    | Enq(x: Item) | Deq | Empty | Next(x: Item)     // visible
    | LeftE | ShiftA | ShiftB | Comm | Right         // hidden; a shift joins DQ with one of the cells

  predicate Hidden(e: Event) {
    e.LeftE? || e.ShiftA? || e.ShiftB? || e.Comm? || e.Right?
  }

  const START := Queue(DQ(0), Hollow, Hollow)

  /** What DQ does at a shift. */
  function ControlShift(c: Control): Option<Control> {
    match c
    case EnqShift(i) => Some(DQ(i + 1))
    case DeqShift => Some(X(2))
    case X(i) => Some(X(i))
    case _ => None
  }

  function Step(q: Queue, e: Event): Option<Queue> {
    match e
    case Enq(x) => if q.c.DQ? && q.c.i != 2 then Some(q.(c := Left(q.c.i, x))) else None
    case Deq =>
      if !q.c.DQ? then None
      else Some(q.(c := if q.c.i == 2 then DeqShift else if q.c.i == 0 then SayEmpty else X(q.c.i)))
    case Empty => if q.c.SayEmpty? then Some(q.(c := DQ(0))) else None
    case Next(x) => if q.c.SayNext? && q.c.x == x then Some(q.(c := DQ(q.c.i - 1))) else None
    case LeftE => if q.c.Left? && q.a.Hollow? then Some(q.(c := EnqShift(q.c.i), a := Loaded(q.c.x))) else None
    case ShiftA =>
      if q.a.Hollow? || q.a.Shifted? || ControlShift(q.c).None? then None
      else Some(q.(c := ControlShift(q.c).value, a := Shifted(q.a.x)))
    case ShiftB =>
      if q.b.Hollow? || q.b.Shifted? || ControlShift(q.c).None? then None
      else Some(q.(c := ControlShift(q.c).value, b := Shifted(q.b.x)))
    case Comm => if q.a.Shifted? && q.b.Hollow? then Some(q.(a := Hollow, b := Loaded(q.a.x))) else None
    case Right => if q.c.X? && q.b.Shifted? then Some(q.(c := SayNext(q.c.i, q.b.x), b := Hollow)) else None
  }

  function Run(q: Queue, es: seq<Event>): Option<Queue>
    decreases |es|
  {
    if es == [] then Some(q) else
    var r := Step(q, es[0]);
    if r.None? then None else Run(r.value, es[1..])
  }

  // ---------- The abstract queue ----------

  /** A queue of at most two items; Asked: a deq waits for its answer. */
  datatype Fifo = Ready(s: seq<Item>) | Asked(s: seq<Item>)

  function FifoStep(f: Fifo, e: Event): Option<Fifo> {
    match e
    case Enq(x) => if f.Ready? && |f.s| < 2 then Some(Ready(f.s + [x])) else None
    case Deq => if f.Ready? then Some(Asked(f.s)) else None
    case Empty => if f == Asked([]) then Some(Ready([])) else None
    case Next(x) => if f.Asked? && f.s != [] && f.s[0] == x then Some(Ready(f.s[1..])) else None
    case _ => None
  }

  function FifoRun(f: Fifo, es: seq<Event>): Option<Fifo>
    decreases |es|
  {
    if es == [] then Some(f) else
    var r := FifoStep(f, es[0]);
    if r.None? then None else FifoRun(r.value, es[1..])
  }

  // ---------- Counting items and shifts ----------

  function Held(c: Cell): seq<Item> {
    if c.Hollow? then [] else [c.x]
  }

  function Items(q: Queue): int {
    |Held(q.a)| + |Held(q.b)|
  }

  /** Shifts that the stored items have completed: an item in b has passed a. */
  function Shifts(q: Queue): int {
    (if q.a.Shifted? then 1 else 0) + (match q.b case Hollow => 0 case Loaded(_) => 1 case Shifted(_) => 2)
  }

  /** At DQ(i) the cells hold i items that have completed i shifts in all. */
  predicate Inv(q: Queue) {
    match q.c
    case DQ(i) => 0 <= i <= 2 && Items(q) == i && Shifts(q) == i
    case Left(i, _) => 0 <= i <= 1 && Items(q) == i && Shifts(q) == i
    case EnqShift(i) => 0 <= i <= 1 && Items(q) == i + 1 && Shifts(q) == i
    case SayEmpty => Items(q) == 0
    case DeqShift => Items(q) == 2 && Shifts(q) == 2
    case X(i) => (i == 1 && Items(q) == 1 && 1 <= Shifts(q) <= 2) || (i == 2 && Items(q) == 2 && Shifts(q) == 3)
    case SayNext(i, _) => 1 <= i <= 2 && Items(q) == i - 1 && Shifts(q) == i - 1
  }

  lemma StepKeeps(q: Queue, e: Event)
    requires Inv(q) && Step(q, e).Some?
    ensures Inv(Step(q, e).value)
  {
  }

  // ---------- Refinement ----------

  /** The abstract queue that q stands for. */
  function View(q: Queue): Fifo {
    var s := Held(q.b) + Held(q.a);
    match q.c
    case DQ(_) => Ready(s)
    case Left(_, x) => Ready(s + [x])
    case EnqShift(_) => Ready(s)
    case SayEmpty => Asked(s)
    case DeqShift => Asked(s)
    case X(_) => Asked(s)
    case SayNext(_, x) => Asked([x] + s)
  }

  /** A hidden event does not change the abstract queue; a visible one is a step of it. */
  lemma StepRefines(q: Queue, e: Event)
    requires Inv(q) && Step(q, e).Some?
    ensures Hidden(e) ==> View(Step(q, e).value) == View(q)
    ensures !Hidden(e) ==> FifoStep(View(q), e) == Some(View(Step(q, e).value))
  {
  }

  /** Hidden events left before the next visible one: each of them moves one item one place on. */
  function Places(q: Queue): nat {
    (if q.c.Left? then 6 else if q.c.SayNext? then 1 else 0)
    + (match q.a case Hollow => 0 case Loaded(_) => 5 case Shifted(_) => 4)
    + (match q.b case Hollow => 0 case Loaded(_) => 3 case Shifted(_) => 2)
  }

  /** No livelock: there are at most ten hidden events in a row. */
  lemma HiddenLowersPlaces(q: Queue, e: Event)
    requires Inv(q) && Hidden(e) && Step(q, e).Some?
    ensures Places(Step(q, e).value) == Places(q) - 1
    ensures Places(q) <= 10
  {
  }

  predicate Stable(q: Queue) {
    forall e :: e in {LeftE, ShiftA, ShiftB, Comm, Right} ==> Step(q, e).None?
  }

  /** No internal deadlock: once no hidden event is possible, q offers exactly what the abstract queue offers. */
  lemma StableOffers(q: Queue, e: Event)
    requires Inv(q) && Stable(q) && !Hidden(e)
    ensures Step(q, e).Some? <==> FifoStep(View(q), e).Some?
  {
    assert Step(q, LeftE).None? && Step(q, ShiftA).None? && Step(q, ShiftB).None? && Step(q, Comm).None?
        && Step(q, Right).None?;
  }

  /** The visible events of a run. */
  function Visible(es: seq<Event>): seq<Event> {
    if es == [] then [] else if Hidden(es[0]) then Visible(es[1..]) else [es[0]] + Visible(es[1..])
  }

  lemma {:induction false} RunRefinesFrom(q: Queue, es: seq<Event>)
    requires Inv(q) && Run(q, es).Some?
    ensures Inv(Run(q, es).value)
    ensures FifoRun(View(q), Visible(es)) == Some(View(Run(q, es).value))
    decreases |es|
  {
    hide Inv, View, FifoStep, Step;
    if es != [] {
      var r := Step(q, es[0]).value;
      StepKeeps(q, es[0]);
      StepRefines(q, es[0]);
      RunRefinesFrom(r, es[1..]);
      assert !Hidden(es[0]) ==> Visible(es)[1..] == Visible(es[1..]);
    }
  }

  /** Every trace of DQueue is a trace of the abstract queue, and leaves it holding the items of DQueue. */
  lemma RunRefines(es: seq<Event>)
    requires Run(START, es).Some?
    ensures Inv(Run(START, es).value)
    ensures FifoRun(Ready([]), Visible(es)) == Some(View(Run(START, es).value))
  {
    RunRefinesFrom(START, es);
  }

  /** Hidden events lead from every state to a stable one. */
  lemma {:induction false} Settle(q: Queue) returns (es: seq<Event>, r: Queue)
    requires Inv(q)
    ensures Visible(es) == [] && Run(q, es) == Some(r)
    ensures Inv(r) && Stable(r) && View(r) == View(q)
    decreases Places(q)
  {
    hide Inv, View, Step, Places;
    if Stable(q) {
      es, r := [], q;
    } else {
      var e :| e in {LeftE, ShiftA, ShiftB, Comm, Right} && Step(q, e).Some?;
      StepKeeps(q, e);
      StepRefines(q, e);
      HiddenLowersPlaces(q, e);
      es, r := Settle(Step(q, e).value);
      assert ([e] + es)[1..] == es;
      es := [e] + es;
    }
  }

  lemma {:induction false} RunAppend(q: Queue, es: seq<Event>, fs: seq<Event>)
    requires Run(q, es).Some?
    ensures Run(q, es + fs) == Run(Run(q, es).value, fs)
    ensures Visible(es + fs) == Visible(es) + Visible(fs)
    decreases |es|
  {
    hide Step;
    if es == [] {
      assert es + fs == fs;
    } else {
      assert (es + fs)[1..] == es[1..] + fs;
      RunAppend(Step(q, es[0]).value, es[1..], fs);
    }
  }

  lemma {:induction false} RunCompletesFrom(q: Queue, vs: seq<Event>) returns (es: seq<Event>)
    requires Inv(q) && FifoRun(View(q), vs).Some?
    ensures Visible(es) == vs && Run(q, es).Some?
    decreases |vs|
  {
    hide Inv, View, Step, FifoStep;
    if vs == [] {
      es := [];
    } else {
      var hs, r := Settle(q);
      var v := vs[0];
      assert !Hidden(v) by { VisibleOnly(View(q), v); }
      StableOffers(r, v);
      StepKeeps(r, v);
      StepRefines(r, v);
      var t := Step(r, v).value;
      es := RunCompletesFrom(t, vs[1..]);
      assert ([v] + es)[1..] == es;
      RunAppend(q, hs, [v] + es);
      es := hs + ([v] + es);
    }
  }

  lemma VisibleOnly(f: Fifo, e: Event)
    requires FifoStep(f, e).Some?
    ensures !Hidden(e)
  {
  }

  /** Every trace of the abstract queue is a trace of DQueue. */
  lemma RunCompletes(vs: seq<Event>) returns (es: seq<Event>)
    requires FifoRun(Ready([]), vs).Some?
    ensures Visible(es) == vs && Run(START, es).Some?
  {
    es := RunCompletesFrom(START, vs);
  }

  // ---------- What a user of DQueue sees ----------

  function In(e: Event): seq<Item> {
    if e.Enq? then [e.x] else []
  }

  function Out(e: Event): seq<Item> {
    if e.Next? then [e.x] else []
  }

  function Inputs(es: seq<Event>): seq<Item> {
    if es == [] then [] else In(es[0]) + Inputs(es[1..])
  }

  function Outputs(es: seq<Event>): seq<Item> {
    if es == [] then [] else Out(es[0]) + Outputs(es[1..])
  }

  lemma StepOrder(f: Fifo, e: Event)
    requires FifoStep(f, e).Some?
    ensures f.s + In(e) == Out(e) + FifoStep(f, e).value.s
    ensures |f.s| <= 2 ==> |FifoStep(f, e).value.s| <= 2
  {
  }

  lemma {:induction false} FifoOrder(f: Fifo, vs: seq<Event>)
    requires FifoRun(f, vs).Some? && |f.s| <= 2
    ensures f.s + Inputs(vs) == Outputs(vs) + FifoRun(f, vs).value.s
    ensures |FifoRun(f, vs).value.s| <= 2
    decreases |vs|
  {
    hide FifoStep, In, Out;
    if vs != [] {
      var g := FifoStep(f, vs[0]).value;
      StepOrder(f, vs[0]);
      FifoOrder(g, vs[1..]);
      var ins, outs, last := Inputs(vs[1..]), Outputs(vs[1..]), FifoRun(f, vs).value.s;
      calc {
        f.s + (In(vs[0]) + ins);
        (f.s + In(vs[0])) + ins;
        (Out(vs[0]) + g.s) + ins;
        Out(vs[0]) + (g.s + ins);
        Out(vs[0]) + (outs + last);
        (Out(vs[0]) + outs) + last;
      }
    }
  }

  /** What has been enqueued has been delivered or is stored, in order. */
  lemma StoredItems(es: seq<Event>)
    requires Run(START, es).Some?
    ensures Inv(Run(START, es).value)
    ensures Inputs(Visible(es)) == Outputs(Visible(es)) + View(Run(START, es).value).s
            && |View(Run(START, es).value).s| <= 2
  {
    hide Step, View, Run, Visible, Inputs, Outputs, Inv, FifoRun;
    RunRefines(es);
    FifoOrder(Ready([]), Visible(es));
    assert [] + Inputs(Visible(es)) == Inputs(Visible(es));
  }

  /**
   On every run the items delivered by next are the items enqueued, in order; empty comes only when
   none is stored and enq only when fewer than two are.
   */
  lemma QueueIsFifo(es: seq<Event>, e: Event)
    requires Run(START, es).Some?
    ensures Outputs(Visible(es)) <= Inputs(Visible(es))
    ensures |Inputs(Visible(es))| - |Outputs(Visible(es))| <= 2
    ensures Step(Run(START, es).value, Empty).Some? ==> Inputs(Visible(es)) == Outputs(Visible(es))
    ensures e.Enq? && Step(Run(START, es).value, e).Some? ==> |Inputs(Visible(es))| - |Outputs(Visible(es))| < 2
    ensures e.Next? && Step(Run(START, es).value, e).Some? ==> Outputs(Visible(es)) + [e.x] <= Inputs(Visible(es))
  {
    var q := Run(START, es).value;
    StoredItems(es);
    hide Step, View, Run, Visible, Inputs, Outputs, Inv;
    if Step(q, Empty).Some? { StepRefines(q, Empty); }
    if Step(q, e).Some? { StepRefines(q, e); }
  }
}
