/**
 Where the program test/DSS.dats does less than the network of processes that it was written from:
 its acknowledgements are read with cond_read from a channel with many writers, and its two cells
 share the barrier of their shifts with the process that drives them.
 */
module DiskProgram {
  import opened Wrappers
  import M = Many2One
  import I = Many2OneInvariant
  import T = Many2OneTheorems
  import C = Many2OneCondRead
  import D = DiskServer
  import Q = DiskQueue
  import B = BarrierPairs

  // ---------- Acknowledgements ----------

  /** The server has taken the requests of two clients. */
  lemma TwoRequests(scripts: seq<seq<int>>, a: nat, b: nat) returns (s: D.Sys)
    requires a < |scripts| && b < |scripts| && a != b && scripts[a] != [] && scripts[b] != []
    ensures D.ReachableFrom(scripts, s) && s.ds.Busy? && s.ctl.AtDio? && s.ctl.r.cl == a && s.disk.AtRest?
    ensures |s.clients| == |scripts| && s.clients[a].pc.More? && s.clients[b].pc.More?
  {
    s := D.Init(scripts);
    assert D.SysRun(s, []) == Some(s);
    hide D.ReachableFrom;
    assert D.CanAsk(s, a) && D.CanAsk(s, b);
    s := D.Take(scripts, s, D.Ds(a));
    s := D.Take(scripts, s, D.Dci);
    s := D.Take(scripts, s, D.Ds(b));
    s := D.Store(scripts, s);
  }

  /** Any two clients can wait for their acknowledgements while the server is about to acknowledge the first. */
  lemma TwoClientsAtAck(scripts: seq<seq<int>>, a: nat, b: nat) returns (s: D.Sys)
    requires a < |scripts| && b < |scripts| && a != b && scripts[a] != [] && scripts[b] != []
    ensures D.ReachableFrom(scripts, s)
    ensures s.ds.SendAck? && s.ds.r.cl == a
    ensures |s.clients| == |scripts| && s.clients[a].pc.WaitAck? && s.clients[b].pc.WaitAck?
  {
    s := TwoRequests(scripts, a, b);
    hide D.ReachableFrom, D.SchedulerStep;
    s := D.Take(scripts, s, D.MoreOf(a));
    s := D.Take(scripts, s, D.MoreOf(b));
    s := D.Take(scripts, s, D.Dio);
    s := D.Take(scripts, s, D.Dint);
    s := D.Take(scripts, s, D.Dco);
  }

  /** The server waits for client cl, which sleeps in write, and every other client in write holds its own number. */
  ghost predicate Stopped(s: M.State, cl: int, i: nat) {
    && s.rpc.RAsleep? && s.func == Some(C.Is(cl)) && s.pBuff.None?
    && i < |s.w| && s.w[i].pc.WAsleep? && s.w[i].buffer == cl
    && forall j :: 0 <= j < |s.w| && j != i && !s.w[j].pc.WIdle? ==> s.w[j].buffer != cl
  }

  /** Two clients that wait for their acknowledgements can leave the server waiting for one of them. */
  lemma AckCanStop(cl: int, other: int) returns (s: M.State)
    requires cl != other
    ensures T.Reachable(s) && T.Stuck(s) && Stopped(s, cl, 1)
  {
    s := C.CondReadCanMiss(other, cl, C.Is(cl));
  }

  /** Clients that come later with their own numbers do not help: the server and the client it waits for sleep on. */
  lemma StoppedStep(s: M.State, cl: int, i: nat, l: M.Label)
    requires I.PhaseOk(s) && Stopped(s, cl, i) && M.Can(s, l)
    requires l.CallWrite? ==> l.v != cl
    ensures Stopped(M.Next(s, l), cl, i)
  {
  }

  lemma {:induction false} AckStaysStopped(s: M.State, cl: int, i: nat, ls: seq<M.Label>, t: M.State)
    requires T.Reachable(s) && Stopped(s, cl, i) && M.Run(s, ls, t)
    requires forall n :: 0 <= n < |ls| && ls[n].CallWrite? ==> ls[n].v != cl
    ensures Stopped(t, cl, i)
    decreases |ls|
  {
    hide Stopped, M.Next, M.Can, T.Reachable;
    if ls != [] {
      assert I.PhaseOk(s) by { T.ReachableInv(s); }
      StoppedStep(s, cl, i, ls[0]);
      T.ReachableStep(s, ls[0]);
      AckStaysStopped(M.Next(s, ls[0]), cl, i, ls[1..], t);
    }
  }

  /** Clients inside write hold different numbers. */
  predicate OwnNumbers(s: M.State) {
    forall i, j :: 0 <= i < j < |s.w| && !s.w[i].pc.WIdle? && !s.w[j].pc.WIdle? ==> s.w[i].buffer != s.w[j].buffer
  }

  /** Client cl is on its way to its test, or it is the only one that sleeps. */
  ghost predicate AckIsSafe(s: M.State, cl: int) {
    exists i: nat ::
      && i < |s.w| && s.w[i].buffer == cl
      && (|| s.w[i].pc.WLock? || s.w[i].pc.WWoken?
          || (s.w[i].pc.WAsleep? && forall j: nat :: j < |s.w| && s.w[j].pc.WAsleep? ==> j == i))
  }

  lemma SafeMeansSure(s: M.State, cl: int)
    requires s.func == Some(C.Is(cl)) && AckIsSafe(s, cl)
    ensures C.SureToServe(s)
  {
    var i: nat :| i < |s.w| && s.w[i].buffer == cl
      && (|| s.w[i].pc.WLock? || s.w[i].pc.WWoken?
          || (s.w[i].pc.WAsleep? && forall j: nat :: j < |s.w| && s.w[j].pc.WAsleep? ==> j == i));
    assert C.Acceptable(s, i);
  }

  lemma SureMeansSafe(s: M.State, cl: int)
    requires OwnNumbers(s) && s.func == Some(C.Is(cl)) && C.SureToServe(s)
    ensures AckIsSafe(s, cl)
  {
    if i: nat :| i < |s.w| && (s.w[i].pc.WLock? || s.w[i].pc.WWoken?) && C.Acceptable(s, i) {
      assert s.w[i].buffer == cl;
    } else {
      var i: nat :| i < |s.w| && s.w[i].pc.WAsleep?;
      assert C.Acceptable(s, i);
      forall j: nat | j < |s.w| && s.w[j].pc.WAsleep? ensures j == i { assert C.Acceptable(s, j); }
    }
  }

  /**
   The server's signal for client cl leads to its acknowledgement, whichever client it wakes, if and
   only if cl is on its way to its test or is the only client that sleeps.
   */
  lemma AckServedIff(s: M.State, cl: int)
    requires T.Reachable(s) && s.rpc.RSignal? && s.func == Some(C.Is(cl)) && OwnNumbers(s)
    ensures (forall k: nat, t: M.State :: C.CanEndIn(s, k, t) ==> C.Served(s, t)) <==> AckIsSafe(s, cl)
  {
    if AckIsSafe(s, cl) { SafeMeansSure(s, cl); }
    if C.SureToServe(s) { SureMeansSafe(s, cl); }
    hide C.CanEndIn, C.Served, C.SureToServe, AckIsSafe, T.Reachable;
    C.ServedWhicheverWoken(s);
  }

  // ---------- The shifts ----------

  /** Both cells wait to shift at the same time exactly while a second item is being shifted in. */
  lemma CellsAtShiftIff(q: Q.Queue)
    requires Q.Inv(q)
    ensures q.a.Loaded? && q.b.Loaded? <==> q.c == Q.EnqShift(1)
  {
  }

  lemma {:induction false} RunSnoc(s: B.State, ls: seq<B.Label>, t: B.State, l: B.Label)
    requires B.Run(s, ls, t) && B.Can(t, l)
    ensures B.Run(s, ls + [l], B.Next(t, l))
    decreases |ls|
  {
    hide B.Next, B.Can;
    if ls == [] {
      assert ls + [l] == [l];
      assert B.Run(B.Next(t, l), [l][1..], B.Next(t, l));
    } else {
      assert (ls + [l])[1..] == ls[1..] + [l];
      RunSnoc(B.Next(s, ls[0]), ls[1..], t, l);
    }
  }

  lemma Take(s: B.State, l: B.Label) returns (t: B.State)
    requires B.Reachable(s) && B.Can(s, l)
    ensures B.Reachable(t) && t == B.Next(s, l)
  {
    t := B.Next(s, l);
    var n: nat, ls :| B.Run(B.Init(n), ls, s);
    RunSnoc(B.Init(n), ls, s, l);
  }

  /** The first of n threads has come to the barrier and waits. */
  lemma FirstWaits(n: nat, i: nat) returns (s: B.State)
    requires i < n
    ensures B.Reachable(s) && |s.t| == n && s.sem == 1 && s.sync == None && s.parts == 1 && s.pairs == []
    ensures forall k :: 0 <= k < n ==> s.t[k] == B.Caller(if k == i then B.BAsleep else B.BIdle, 0)
  {
    s := B.Init(n);
    assert B.Run(s, [], s);
    assert B.Reachable(s);
    hide B.Reachable;
    s := Take(s, B.Call(i));
    s := Take(s, B.Step(i, i));
    s := Take(s, B.Step(i, i));
    s := Take(s, B.Step(i, i));
    s := Take(s, B.Step(i, i));
  }

  /** Any two threads that share a barrier can release each other while the others take no part. */
  lemma AnyTwoCanPair(n: nat, i: nat, j: nat) returns (s: B.State)
    requires i < n && j < n && i != j
    ensures B.Reachable(s) && |s.t| == n && s.pairs == [(i, j)]
    ensures forall k :: 0 <= k < n && k != i && k != j ==> s.t[k] == B.Caller(B.BIdle, 0)
  {
    s := FirstWaits(n, i);
    hide B.Reachable;
    s := Take(s, B.Call(j));
    s := Take(s, B.Step(j, i));
    s := Take(s, B.Step(j, i));
    s := Take(s, B.Step(j, i));
    s := Take(s, B.Step(j, i));
  }

  /** So the two cells, threads 1 and 2, can release each other on the barrier of DQ, thread 0. */
  lemma CellsCanPair() returns (s: B.State)
    ensures B.Reachable(s) && |s.t| == 3 && s.pairs == [(1, 2)] && s.t[0] == B.Caller(B.BIdle, 0)
  {
    s := AnyTwoCanPair(3, 1, 2);
  }
}
