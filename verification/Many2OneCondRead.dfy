/**
 When a cond_read is served.  It signals one waiting writer only, so an acceptable write may be
 passed over; these lemmas say which calls of write can serve the read and which cannot.
 */
module Many2OneCondRead {
  import opened Sums
  import opened Wrappers
  import opened Many2One
  import opened Many2OneInvariant
  import opened Many2OneTheorems

  /** The writer is still to make the test of the while loop. */
  predicate WillTest(x: Writer) {
    x.pc.WLock? || x.pc.WEnter? || x.pc.WTest? || x.pc.WWoken?
  }

  /** The reader has opened with a guard, any signal is over, and nobody has committed for it. */
  predicate Unserved(s: State) {
    Open(s.rpc) && !s.rpc.RSignal? && s.func.Some? && s.pBuff.None?
  }

  predicate Acceptable(s: State, i: nat) {
    i < |s.w| && s.func.Some? && s.func.value(s.w[i].buffer)
  }

  ghost predicate InternalRun(s: State, ls: seq<Label>, t: State) {
    Run(s, ls, t) && forall i :: 0 <= i < |ls| ==> Internal(ls[i])
  }

  /** The read that is open in s has returned in t. */
  predicate Served(s: State, t: State) {
    t.rpc.RIdle? && |t.got| == |s.got| + 1
  }

  // ---------- What happens after the signal ----------

  /** In t nobody has committed since s, and no writer that s.func accepts has made its test. */
  ghost predicate Waits(s: State, t: State) {
    && Unserved(t) && t.got == s.got && t.func == s.func
    && |t.w| == |s.w|
    && (forall i :: 0 <= i < |s.w| ==>
          && t.w[i].buffer == s.w[i].buffer && (t.w[i].pc.WIdle? <==> s.w[i].pc.WIdle?)
          && (WillTest(t.w[i]) ==> WillTest(s.w[i]))
          && (WillTest(s.w[i]) && Acceptable(s, i) ==> WillTest(t.w[i]))
          && (s.w[i].pc.WAsleep? ==> t.w[i] == s.w[i]))
  }

  /** In t a writer has committed for the read that is open in s. */
  predicate Committed(s: State, t: State) {
    || (Open(t.rpc) && t.pBuff.Some? && t.got == s.got)
    || ((t.rpc.RLeave? || t.rpc.RIdle?) && |t.got| == |s.got| + 1)
  }

  ghost predicate SomeWillServe(s: State) {
    exists i: nat :: i < |s.w| && WillTest(s.w[i]) && Acceptable(s, i)
  }

  lemma WriteWhileWaiting(s: State, t: State, i: nat)
    requires Waits(s, t) && PhaseOk(t) && WriterCan(t, i)
    ensures var u := WriterStep(t, i); Waits(s, u) || (Committed(s, u) && WillTest(s.w[i]) && Acceptable(s, i))
  {
  }

  lemma ReadWhileWaiting(s: State, t: State, k: nat)
    requires Waits(s, t) && PhaseOk(t) && ReaderCan(t, k)
    ensures Waits(s, ReaderStep(t, k))
  {
  }

  lemma StepAfterCommit(s: State, t: State, l: Label)
    requires Committed(s, t) && MutexOk(t) && PhaseOk(t) && Internal(l) && Can(t, l)
    ensures Committed(s, Next(t, l))
  {
  }

  lemma {:induction false} RunAfterCommit(s: State, t: State, ls: seq<Label>, v: State)
    requires Committed(s, t) && Reachable(t) && InternalRun(t, ls, v)
    ensures Committed(s, v)
    decreases |ls|
  {
    hide Committed, Reachable, Next, Can;
    if ls != [] {
      assert MutexOk(t) && PhaseOk(t) by { ReachableInv(t); }
      StepAfterCommit(s, t, ls[0]);
      ReachableStep(t, ls[0]);
      RunAfterCommit(s, Next(t, ls[0]), ls[1..], v);
    }
  }

  lemma StepWhileWaiting(s: State, t: State, l: Label)
    requires Waits(s, t) && PhaseOk(t) && Internal(l) && Can(t, l)
    ensures Waits(s, Next(t, l)) || (Committed(s, Next(t, l)) && SomeWillServe(s))
  {
    hide Waits, Committed, WriterStep, ReaderStep, PhaseOk;
    match l
    case Write(i) => WriteWhileWaiting(s, t, i);
    case Read(k) => ReadWhileWaiting(s, t, k);
  }

  lemma {:induction false} RunWhileWaiting(s: State, t: State, ls: seq<Label>, v: State)
    requires Waits(s, t) && Reachable(t) && InternalRun(t, ls, v)
    ensures Reachable(v)
    ensures Waits(s, v) || (Committed(s, v) && SomeWillServe(s))
    decreases |ls|
  {
    hide Waits, Committed, Reachable, Next, Can, SomeWillServe;
    if ls != [] {
      assert PhaseOk(t) by { ReachableInv(t); }
      StepWhileWaiting(s, t, ls[0]);
      ReachableStep(t, ls[0]);
      var u := Next(t, ls[0]);
      if Waits(s, u) {
        RunWhileWaiting(s, u, ls[1..], v);
      } else {
        RunAfterCommit(s, u, ls[1..], v);
        ReachableRun(u, ls[1..], v);
      }
    }
  }

  lemma {:induction false} ReachableRun(s: State, ls: seq<Label>, t: State)
    requires Reachable(s) && Run(s, ls, t)
    ensures Reachable(t)
    decreases |ls|
  {
    hide Reachable, Next, Can;
    if ls != [] {
      ReachableStep(s, ls[0]);
      ReachableRun(Next(s, ls[0]), ls[1..], t);
    }
  }

  lemma SettledWhileWaiting(s: State, t: State)
    requires Waits(s, t) && Settled(t)
    ensures !SomeWillServe(s) && !Served(s, t) && t.rpc.RAsleep?
  {
  }

  lemma SettledAfterCommit(s: State, t: State)
    requires Committed(s, t) && Settled(t)
    ensures Served(s, t)
  {
  }

  /**
   An unserved read is served, once the calls in progress have run out, if and only if its guard
   accepts a writer that is still to make its test; otherwise the reader and the writers that
   slept still sleep.
   */
  lemma UnservedServedIff(s: State, ls: seq<Label>, t: State)
    requires Reachable(s) && Unserved(s) && InternalRun(s, ls, t) && Stuck(t)
    ensures Served(s, t) <==> SomeWillServe(s)
    ensures !Served(s, t) ==> t.rpc.RAsleep? && Waits(s, t)
  {
    hide Reachable, Stuck, Run, Waits, Committed, Served, SomeWillServe;
    assert Waits(s, s) by { WaitsAtFirst(s); }
    RunWhileWaiting(s, s, ls, t);
    StuckIsSettled(t);
    if Waits(s, t) { SettledWhileWaiting(s, t); } else { SettledAfterCommit(s, t); }
  }

  lemma WaitsAtFirst(s: State)
    requires Unserved(s)
    ensures Waits(s, s)
  {
  }

  // ---------- cond_read from its opening ----------

  /** Writer i has been called and will make its test after the reader, at its signal in s, has woken writer `wake`. */
  predicate CanServe(s: State, wake: nat, i: nat) {
    i < |s.w| && (s.w[i].pc.WLock? || s.w[i].pc.WWoken? || (i == wake && s.w[i].pc.WAsleep?)) && Acceptable(s, i)
  }

  lemma ServersAfterSignal(s: State, wake: nat)
    requires MutexOk(s) && PhaseOk(s) && s.rpc.RSignal? && s.func.Some? && ReaderCan(s, wake)
    ensures var u := ReaderStep(s, wake);
            && Unserved(u) && u.got == s.got && u.func == s.func && |u.w| == |s.w|
            && forall i: nat :: i < |s.w| ==>
                 && (WillTest(u.w[i]) && Acceptable(u, i) <==> CanServe(s, wake, i))
                 && (s.w[i].pc.WAsleep? && i != wake ==> u.w[i] == s.w[i])
                 && u.w[i].buffer == s.w[i].buffer && (u.w[i].pc.WIdle? <==> s.w[i].pc.WIdle?)
  {
  }

  /**
   A cond_read that signals: when the calls in progress have run out, it has been served if and
   only if its guard accepts the writer that the signal woke, or one that was already on its way
   to its test; writers that stayed asleep do not count.
   */
  lemma CondReadServedIff(s: State, wake: nat, ls: seq<Label>, t: State)
    requires Reachable(s) && s.rpc.RSignal? && s.func.Some? && ReaderCan(s, wake)
    requires InternalRun(ReaderStep(s, wake), ls, t) && Stuck(t)
    ensures Served(s, t) <==> exists i: nat :: CanServe(s, wake, i)
    ensures !Served(s, t) ==>
              && t.rpc.RAsleep? && t.func == s.func && t.got == s.got && |t.w| == |s.w|
              && forall i :: 0 <= i < |s.w| ==>
                   && (s.w[i].pc.WAsleep? && i != wake ==> t.w[i] == s.w[i])
                   && t.w[i].buffer == s.w[i].buffer && (t.w[i].pc.WIdle? <==> s.w[i].pc.WIdle?)
  {
    var u := ReaderStep(s, wake);
    assert MutexOk(s) && PhaseOk(s) by { ReachableInv(s); }
    ReachableStep(s, Read(wake));
    ServersAfterSignal(s, wake);
    UnservedServedIff(u, ls, t);
    hide InternalRun, Stuck, Reachable, MutexOk, PhaseOk, ReaderStep, ReaderCan, WillTest, CanServe, Unserved;
    if i: nat :| CanServe(s, wake, i) {
      assert i < |s.w| by { ServerInRange(s, wake, i); }
    }
  }

  lemma ServerInRange(s: State, wake: nat, i: nat)
    requires CanServe(s, wake, i)
    ensures i < |s.w|
  {
  }

  /**
   A cond_read that finds m_ulWriter = 0 gives no signal: it is served if and only if its guard
   accepts a writer that has been called and has not locked m_sync yet.
   */
  lemma CondReadUnsignalledIff(s: State, ls: seq<Label>, t: State)
    requires Reachable(s) && s.rpc.ROpen? && s.rpc.test.Some? && s.ulWriter == 0
    requires InternalRun(ReaderStep(s, 0), ls, t) && Stuck(t)
    ensures Served(s, t) <==> exists i: nat :: i < |s.w| && s.w[i].pc.WLock? && s.rpc.test.value(s.w[i].buffer)
  {
    var u := ReaderStep(s, 0);
    OpeningFindsNobody(s);
    ReachableStep(s, Read(0));
    UnservedServedIff(u, ls, t);
    assert SomeWillServe(u) <==> exists i: nat :: i < |s.w| && s.w[i].pc.WLock? && s.rpc.test.value(s.w[i].buffer);
  }

  lemma OpeningFindsNobody(s: State)
    requires Reachable(s) && s.rpc.ROpen? && s.rpc.test.Some? && s.ulWriter == 0
    ensures s.sync == ByReader && s.pBuff.None?
    ensures forall i :: 0 <= i < |s.w| ==> s.w[i].pc.WIdle? || s.w[i].pc.WLock?
  {
    ReachableInv(s);
    forall i | 0 <= i < |s.w| ensures Counted(s.w[i]) == 0 { SumAtLeast(s.w, Counted, i); }
  }

  // ---------- Whichever writer is woken ----------

  /** The calls in progress can run out in t after the signal has woken writer k. */
  ghost predicate CanEndIn(s: State, k: nat, t: State) {
    ReaderCan(s, k) && Stuck(t) && exists ls: seq<Label> :: InternalRun(ReaderStep(s, k), ls, t)
  }

  lemma EndIsDecided(s: State, k: nat, t: State)
    requires Reachable(s) && s.rpc.RSignal? && s.func.Some? && CanEndIn(s, k, t)
    ensures Served(s, t) <==> exists i: nat :: CanServe(s, k, i)
  {
    var ls :| InternalRun(ReaderStep(s, k), ls, t);
    CondReadServedIff(s, k, ls, t);
  }

  lemma SomeEnd(s: State, k: nat) returns (t: State)
    requires ReaderCan(s, k)
    ensures CanEndIn(s, k, t)
  {
    var ls;
    ls, t := SettlingRun(ReaderStep(s, k));
    assert InternalRun(ReaderStep(s, k), ls, t);
  }

  /** The guard accepts a writer that is on its way to its test, or some writer sleeps and it accepts all that do. */
  ghost predicate SureToServe(s: State) {
    || (exists i: nat :: i < |s.w| && (s.w[i].pc.WLock? || s.w[i].pc.WWoken?) && Acceptable(s, i))
    || (&& (exists i: nat :: i < |s.w| && s.w[i].pc.WAsleep?)
        && (forall i: nat :: i < |s.w| && s.w[i].pc.WAsleep? ==> Acceptable(s, i)))
  }

  lemma SureIff(s: State)
    requires s.rpc.RSignal?
    ensures SureToServe(s) <==> forall k: nat :: ReaderCan(s, k) ==> exists i: nat :: CanServe(s, k, i)
  {
    if SureToServe(s) {
      forall k: nat | ReaderCan(s, k) ensures exists i: nat :: CanServe(s, k, i) {
        if i: nat :| i < |s.w| && (s.w[i].pc.WLock? || s.w[i].pc.WWoken?) && Acceptable(s, i) {
          assert CanServe(s, k, i);
        } else {
          assert CanServe(s, k, k);
        }
      }
    } else if i: nat :| i < |s.w| && s.w[i].pc.WAsleep? {
      var k: nat :| k < |s.w| && s.w[k].pc.WAsleep? && !Acceptable(s, k);
      assert ReaderCan(s, k);
    } else {
      assert ReaderCan(s, 0);
    }
  }

  /**
   A cond_read is served whichever writer its signal wakes if and only if it is sure to be, by what
   the writers hold at the signal.
   */
  lemma ServedWhicheverWoken(s: State)
    requires Reachable(s) && s.rpc.RSignal? && s.func.Some?
    ensures (forall k: nat, t: State :: CanEndIn(s, k, t) ==> Served(s, t)) <==> SureToServe(s)
  {
    SureIff(s);
    hide CanEndIn, Reachable, SureToServe, Served, CanServe, ReaderCan;
    forall k: nat, t: State | CanEndIn(s, k, t)
      ensures ReaderCan(s, k) && (Served(s, t) <==> exists i: nat :: CanServe(s, k, i))
    {
      EndIsPossible(s, k, t);
      EndIsDecided(s, k, t);
    }
    forall k: nat | ReaderCan(s, k) ensures exists t: State :: CanEndIn(s, k, t) {
      var t := SomeEnd(s, k);
    }
  }

  lemma EndIsPossible(s: State, k: nat, t: State)
    requires CanEndIn(s, k, t)
    ensures ReaderCan(s, k)
  {
  }

  // ---------- A run on which an acceptable writer is passed over ----------

  /** The guard that takes the value v only. */
  function Is(v: int): Test {
    w => w == v
  }

  /** Two writers sleep with a and b when a cond_read with the guard test is about to signal. */
  lemma TwoSleepers(a: int, b: int, test: Test) returns (s: State)
    ensures Reachable(s) && s.rpc.RSignal? && s.func == Some(test) && |s.w| == 2
    ensures s.w[0].pc.WAsleep? && s.w[0].buffer == a && s.w[1].pc.WAsleep? && s.w[1].buffer == b
  {
    var ls := [CallWrite(0, a), Write(0), Write(0), Write(0), CallWrite(1, b), Write(1), Write(1), Write(1),
               CallRead(Some(test)), Read(0), Read(0)];
    s := Init(2);
    assert Run(Init(2), [], s);
    assert Reachable(s);
    var n := 0;
    while n < |ls|
      invariant 0 <= n <= |ls| && Reachable(s)
      invariant |s.w| == 2 && s.got == []
      invariant n <= 4 ==> s.w[1].pc.WIdle?
      invariant n <= 8 ==> s.rpc.RIdle? && s.ulWriter == (if n < 3 then 0 else if n < 7 then 1 else 2) && !s.bReader
      invariant s.w[0].pc == (match n case 0 => WIdle case 1 => WLock case 2 => WEnter case 3 => WTest
                case _ => WAsleep)
      invariant n > 4 ==> s.w[1].pc == (match n case 5 => WLock case 6 => WEnter case 7 => WTest case _ => WAsleep)
      invariant n >= 1 ==> s.w[0].buffer == a
      invariant n >= 5 ==> s.w[1].buffer == b
      invariant s.sync == (if n == 2 || n == 3 then ByWriter(0)
                           else if n == 6 || n == 7 then ByWriter(1)
                           else if n >= 10 then ByReader else Free)
      invariant n == 9 ==> s.rpc == RLock(Some(test)) && s.ulWriter == 2
      invariant n == 10 ==> s.rpc == ROpen(Some(test)) && s.ulWriter == 2
      invariant n == 11 ==> s.rpc == RSignal && s.func == Some(test)
    {
      ReachableStep(s, ls[n]);
      s := Next(s, ls[n]);
      n := n + 1;
    }
  }

  /**
   A run can end with the reader asleep although its guard accepts a writer that sleeps inside
   write: for every guard, and every two values of which it refuses one and accepts the other.
   */
  lemma CondReadCanMiss(refused: int, accepted: int, test: Test) returns (t: State)
    requires !test(refused) && test(accepted)
    ensures Reachable(t) && Stuck(t) && t.rpc.RAsleep? && t.pBuff.None? && t.func == Some(test) && |t.w| == 2
    ensures t.w[0].pc.WAsleep? && t.w[0].buffer == refused && t.w[1].pc.WAsleep? && t.w[1].buffer == accepted
  {
    var s := TwoSleepers(refused, accepted, test);
    var ls;
    ls, t := SettlingRun(ReaderStep(s, 0));
    CondReadServedIff(s, 0, ls, t);
    ReachableStep(s, Read(0));
    ReachableRun(ReaderStep(s, 0), ls, t);
    assert forall i: nat :: !CanServe(s, 0, i);
    StuckIsSettled(t);
  }
}
