/**
 Barrier2::sync called by any number of threads, none of which alternates.  The semaphore
 admits two callers; the first to come waits and the second releases it.
 */
module BarrierPairs {
  import opened Wrappers
  import opened Sums

  datatype Pc =
    | BIdle
    | BSem       // about to sem_wait
    | BLock      // about to lock m_sync
    | BBody      // holds m_sync: ++m_parts and the test
    | BWait      // holds m_sync, about to wait on m_cond
    | BAsleep    // in the wait set
    | BWoken     // signalled, must lock m_sync again
    | BSignal    // holds m_sync: about to signal m_cond
    | BPost      // holds m_sync: about to sem_post
    | BUnlock    // holds m_sync, about to unlock it and return

  datatype Caller = Caller(pc: Pc, returned: nat)

  datatype State = State(
    sem: nat,                    // m_sem
    sync: Option<nat>,           // the thread that holds m_sync
    parts: int,                  // m_parts
    t: seq<Caller>,
    pairs: seq<(nat, nat)>)      // history: who was released by whom

  function Init(n: nat): State {
    State(2, None, 0, seq(n, _ => Caller(BIdle, 0)), [])
  }

  datatype Label = Call(i: nat) | Step(i: nat, wake: nat)

  /** wake: the thread that the signal wakes, when some thread waits. */
  predicate Can(s: State, l: Label) {
    && l.i < |s.t|
    && match l
       case Call(i) => s.t[i].pc.BIdle?
       case Step(i, wake) =>
         match s.t[i].pc
         case BIdle => false
         case BAsleep => false
         case BSem => s.sem > 0
         case BLock => s.sync == None
         case BWoken => s.sync == None
         case BSignal => (exists j :: 0 <= j < |s.t| && s.t[j].pc.BAsleep?) ==> wake < |s.t| && s.t[wake].pc.BAsleep?
         case _ => true
  }

  function Put(s: State, i: nat, pc: Pc): State
    requires i < |s.t|
  {
    s.(t := s.t[i := s.t[i].(pc := pc)])
  }

  function Next(s: State, l: Label): State
    requires Can(s, l)
  {
    var i := l.i;
    if l.Call? then Put(s, i, BSem) else
    match s.t[i].pc
    case BIdle => s
    case BSem => Put(s, i, BLock).(sem := s.sem - 1)
    case BLock => Put(s, i, BBody).(sync := Some(i))
    case BBody => Put(s, i, if s.parts + 1 != 2 then BWait else BSignal).(parts := s.parts + 1)
    case BWait => Put(s, i, BAsleep).(sync := None)
    case BAsleep => s
    case BWoken => Put(s, i, BPost).(sync := Some(i))
    case BSignal =>
      var u := Put(s, i, BPost).(parts := s.parts - 2);
      if l.wake < |s.t| && l.wake != i && s.t[l.wake].pc.BAsleep?
      then Put(u, l.wake, BWoken).(pairs := s.pairs + [(l.wake, i)]) else u
    case BPost => Put(s, i, BUnlock).(sem := s.sem + 1)
    case BUnlock => s.(t := s.t[i := Caller(BIdle, s.t[i].returned + 1)], sync := None)
  }

  predicate Run(s: State, ls: seq<Label>, v: State)
    decreases |ls|
  {
    if ls == [] then s == v else Can(s, ls[0]) && Run(Next(s, ls[0]), ls[1..], v)
  }

  // ---------- The invariant ----------

  predicate Holds(p: Pc) {
    p.BBody? || p.BWait? || p.BSignal? || p.BPost? || p.BUnlock?
  }

  /** Permits of the semaphore held by a thread. */
  function Permit(c: Caller): nat {
    if c.pc.BIdle? || c.pc.BSem? || c.pc.BUnlock? then 0 else 1
  }

  /** The thread is counted in m_parts. */
  function Part(c: Caller): nat {
    if c.pc.BWait? || c.pc.BAsleep? || c.pc.BSignal? then 1 else 0
  }

  /** Calls of the thread that have been released. */
  function Released(c: Caller): nat {
    c.returned + (if c.pc.BWoken? || c.pc.BPost? || c.pc.BUnlock? then 1 else 0)
  }

  /** Pairs that thread i belongs to. */
  function PairsOf(pairs: seq<(nat, nat)>, i: nat): nat {
    if pairs == [] then 0 else
    var last := pairs[|pairs| - 1];
    PairsOf(pairs[..|pairs| - 1], i) + (if last.0 == i || last.1 == i then 1 else 0)
  }

  predicate LockOk(s: State) {
    && (s.sync.Some? ==> s.sync.value < |s.t| && Holds(s.t[s.sync.value].pc))
    && (forall i :: 0 <= i < |s.t| && Holds(s.t[i].pc) ==> s.sync == Some(i))
  }

  predicate PartsOk(s: State) {
    && s.parts == Sum(s.t, Part)
    && 0 <= s.parts <= 2
    && (s.parts == 2 <==> s.sync.Some? && s.sync.value < |s.t| && s.t[s.sync.value].pc.BSignal?)
  }

  predicate PermitsOk(s: State) {
    s.sem + Sum(s.t, Permit) == 2
  }

  predicate PairsOk(s: State) {
    && (forall i :: 0 <= i < |s.t| ==> PairsOf(s.pairs, i) == Released(s.t[i]))
    && (forall k :: 0 <= k < |s.pairs| ==> s.pairs[k].0 != s.pairs[k].1 && s.pairs[k].0 < |s.t| && s.pairs[k].1 < |s.t|)
    && Sum(s.t, Released) == 2 * |s.pairs|
  }

  predicate Inv(s: State) {
    LockOk(s) && PartsOk(s) && PermitsOk(s) && PairsOk(s)
  }

  lemma InitOk(n: nat)
    ensures Inv(Init(n))
  {
    SumZero(Init(n).t, Part);
    SumZero(Init(n).t, Permit);
    SumZero(Init(n).t, Released);
  }

  /** A signal finds the one thread that waits. */
  lemma SignalFindsWaiter(s: State, i: nat) returns (j: nat)
    requires LockOk(s) && PartsOk(s) && i < |s.t| && s.t[i].pc.BSignal?
    ensures j < |s.t| && j != i && s.t[j].pc.BAsleep?
    ensures forall k :: 0 <= k < |s.t| && k != i && k != j ==> !s.t[k].pc.BAsleep?
  {
    var out := s.t[i := Caller(BIdle, 0)];
    SumUpdate(s.t, Part, i, Caller(BIdle, 0));
    j := SumPositive(out, Part);
    var rest := out[j := Caller(BIdle, 0)];
    SumUpdate(out, Part, j, Caller(BIdle, 0));
    forall k | 0 <= k < |s.t| && k != i && k != j ensures !s.t[k].pc.BAsleep? {
      SumAtLeast(rest, Part, k);
    }
  }

  /** The step of one thread, as an update of its record; a signal also updates the woken thread's. */
  lemma StepUpdates(s: State, l: Label)
    requires LockOk(s) && PartsOk(s) && Can(s, l)
    ensures var u := Next(s, l);
            if l.Step? && s.t[l.i].pc.BSignal?
            then l.wake < |s.t| && l.wake != l.i && s.t[l.wake].pc.BAsleep?
                 && u.t == s.t[l.i := s.t[l.i].(pc := BPost)][l.wake := s.t[l.wake].(pc := BWoken)]
                 && u.pairs == s.pairs + [(l.wake, l.i)]
            else |u.t| == |s.t| && u.t == s.t[l.i := u.t[l.i]] && u.pairs == s.pairs
  {
    if l.Step? && s.t[l.i].pc.BSignal? {
      var j := SignalFindsWaiter(s, l.i);
    }
  }

  lemma SumAfter(s: State, l: Label, f: Caller -> nat)
    requires LockOk(s) && PartsOk(s) && Can(s, l)
    ensures var u := Next(s, l);
            && |u.t| == |s.t|
            && if l.Step? && s.t[l.i].pc.BSignal?
               then l.wake < |s.t| && Sum(u.t, f) + f(s.t[l.i]) + f(s.t[l.wake])
                   == Sum(s.t, f) + f(s.t[l.i].(pc := BPost)) + f(s.t[l.wake].(pc := BWoken))
               else Sum(u.t, f) + f(s.t[l.i]) == Sum(s.t, f) + f(u.t[l.i])
  {
    StepUpdates(s, l);
    var u := Next(s, l);
    if l.Step? && s.t[l.i].pc.BSignal? {
      var mid := s.t[l.i := s.t[l.i].(pc := BPost)];
      SumUpdate(s.t, f, l.i, s.t[l.i].(pc := BPost));
      SumUpdate(mid, f, l.wake, s.t[l.wake].(pc := BWoken));
    } else {
      SumUpdate(s.t, f, l.i, u.t[l.i]);
    }
  }

  lemma StepKeepsLock(s: State, l: Label)
    requires LockOk(s) && PartsOk(s) && Can(s, l)
    ensures LockOk(Next(s, l))
  {
    StepUpdates(s, l);
  }

  lemma StepKeepsParts(s: State, l: Label)
    requires LockOk(s) && PartsOk(s) && Can(s, l)
    ensures PartsOk(Next(s, l))
  {
    StepUpdates(s, l);
    SumAfter(s, l, Part);
  }

  lemma StepKeepsPermits(s: State, l: Label)
    requires LockOk(s) && PartsOk(s) && PermitsOk(s) && Can(s, l)
    ensures PermitsOk(Next(s, l))
  {
    StepUpdates(s, l);
    SumAfter(s, l, Permit);
  }

  lemma StepCountsPairs(s: State, l: Label, i: nat)
    requires LockOk(s) && PartsOk(s) && PairsOk(s) && Can(s, l) && i < |s.t|
    ensures i < |Next(s, l).t| && PairsOf(Next(s, l).pairs, i) == Released(Next(s, l).t[i])
  {
    StepUpdates(s, l);
    assert PairsOf(s.pairs, i) == Released(s.t[i]);
    var u := Next(s, l);
    assert u.pairs != s.pairs ==> u.pairs[..|u.pairs| - 1] == s.pairs;
  }

  lemma StepKeepsPairs(s: State, l: Label)
    requires LockOk(s) && PartsOk(s) && PairsOk(s) && Can(s, l)
    ensures PairsOk(Next(s, l))
  {
    StepUpdates(s, l);
    SumAfter(s, l, Released);
    var u := Next(s, l);
    forall i | 0 <= i < |u.t| ensures PairsOf(u.pairs, i) == Released(u.t[i]) { StepCountsPairs(s, l, i); }
    hide PairsOf;
  }

  lemma {:induction false} RunKeeps(s: State, ls: seq<Label>, v: State)
    requires Inv(s) && Run(s, ls, v)
    ensures Inv(v)
    decreases |ls|
  {
    hide LockOk, PartsOk, PermitsOk, PairsOk, Next, Can;
    if ls != [] {
      StepKeepsLock(s, ls[0]);
      StepKeepsParts(s, ls[0]);
      StepKeepsPermits(s, ls[0]);
      StepKeepsPairs(s, ls[0]);
      RunKeeps(Next(s, ls[0]), ls[1..], v);
    }
  }

  ghost predicate Reachable(s: State) {
    exists n: nat, ls: seq<Label> :: Run(Init(n), ls, s)
  }

  lemma ReachableInv(s: State)
    requires Reachable(s)
    ensures Inv(s)
  {
    var n: nat, ls :| Run(Init(n), ls, s);
    InitOk(n);
    hide Inv;
    RunKeeps(Init(n), ls, s);
  }

  // ---------- What callers may rely on ----------

  /**
   Calls are released in pairs: each thread has been released once for each pair it belongs to, and
   k pairs have released exactly 2k calls.
   */
  lemma ReleasedInPairs(s: State)
    requires Reachable(s)
    ensures forall i :: 0 <= i < |s.t| ==> PairsOf(s.pairs, i) == Released(s.t[i])
    ensures forall k :: 0 <= k < |s.pairs| ==> s.pairs[k].0 != s.pairs[k].1
    ensures Sum(s.t, Released) == 2 * |s.pairs|
  {
    ReachableInv(s);
  }

  /** The two calls of a pair overlap: one is waiting inside sync when the other releases it. */
  lemma PairsOverlap(s: State, l: Label)
    requires Reachable(s) && Can(s, l) && Next(s, l).pairs != s.pairs
    ensures l.Step? && l.wake < |s.t| && l.wake != l.i
    ensures s.t[l.wake].pc.BAsleep? && s.t[l.i].pc.BSignal?
    ensures Next(s, l).pairs == s.pairs + [(l.wake, l.i)]
    ensures forall k :: 0 <= k < |s.t| && s.t[k].pc.BAsleep? ==> k == l.wake
  {
    ReachableInv(s);
    StepUpdates(s, l);
    var j := SignalFindsWaiter(s, l.i);
  }

  function Waiting(c: Caller): nat {
    if c.pc.BAsleep? then 1 else 0
  }

  lemma {:induction false} PartsAreWaiting(t: seq<Caller>)
    requires forall i :: 0 <= i < |t| ==> !t[i].pc.BWait? && !t[i].pc.BSignal?
    ensures Sum(t, Part) == Sum(t, Waiting)
  {
    if t != [] { PartsAreWaiting(t[1..]); }
  }

  /** While m_sync is free, m_parts is 0 or 1 and is the size of the wait set; at most two threads hold permits. */
  lemma FreeBarrier(s: State)
    requires Reachable(s) && s.sync == None
    ensures 0 <= s.parts <= 1 && s.parts == Sum(s.t, Waiting)
    ensures Sum(s.t, Permit) <= 2
  {
    ReachableInv(s);
    PartsAreWaiting(s.t);
  }

  // ---------- Progress ----------

  function Rank(c: Caller): nat {
    match c.pc
    case BIdle => 0
    case BUnlock => 1
    case BPost => 2
    case BSignal => 3
    case BWoken => 3
    case BAsleep => 4
    case BWait => 5
    case BBody => 6
    case BLock => 7
    case BSem => 8
  }

  /** Every step inside sync lowers the number of steps left. */
  lemma StepLowersRank(s: State, l: Label)
    requires Reachable(s) && Can(s, l) && l.Step?
    ensures Sum(Next(s, l).t, Rank) < Sum(s.t, Rank)
  {
    ReachableInv(s);
    StepUpdates(s, l);
    SumAfter(s, l, Rank);
    hide Inv;
  }

  ghost predicate Stuck(s: State) {
    forall i: nat, wake: nat :: !Can(s, Step(i, wake))
  }

  lemma StuckFreesLock(s: State)
    requires Reachable(s) && Stuck(s)
    ensures s.sync == None
  {
    ReachableInv(s);
    if s.sync.Some? {
      var i := s.sync.value;
      var wake: nat := 0;
      if s.t[i].pc.BSignal? { wake := SignalFindsWaiter(s, i); }
      var c := Can(s, Step(i, wake));
    }
  }

  lemma {:induction false} PermitsOfWaiting(t: seq<Caller>)
    requires forall i :: 0 <= i < |t| ==> t[i].pc.BIdle? || t[i].pc.BSem? || t[i].pc.BAsleep?
    ensures Sum(t, Permit) == Sum(t, Waiting)
  {
    if t != [] { PermitsOfWaiting(t[1..]); }
  }

  /** When nothing can move inside sync, at most one thread is inside: any two callers release each other. */
  lemma StuckLeavesAtMostOne(s: State)
    requires Reachable(s) && Stuck(s)
    ensures forall i :: 0 <= i < |s.t| ==> s.t[i].pc.BIdle? || s.t[i].pc.BAsleep?
    ensures forall i, j :: 0 <= i < j < |s.t| ==> s.t[i].pc.BIdle? || s.t[j].pc.BIdle?
  {
    StuckFreesLock(s);
    ReachableInv(s);
    forall i | 0 <= i < |s.t| ensures s.t[i].pc.BIdle? || s.t[i].pc.BSem? || s.t[i].pc.BAsleep? {
      var c := Can(s, Step(i, 0));
    }
    FreeBarrier(s);
    PermitsOfWaiting(s.t);
    forall i | 0 <= i < |s.t| ensures s.t[i].pc.BIdle? || s.t[i].pc.BAsleep? {
      var c := Can(s, Step(i, 0));
    }
    forall i, j | 0 <= i < j < |s.t| ensures s.t[i].pc.BIdle? || s.t[j].pc.BIdle? {
      if s.t[i].pc.BAsleep? && s.t[j].pc.BAsleep? {
        SumUpdate(s.t, Waiting, i, Caller(BIdle, 0));
        SumAtLeast(s.t[i := Caller(BIdle, 0)], Waiting, j);
      }
    }
  }
}
