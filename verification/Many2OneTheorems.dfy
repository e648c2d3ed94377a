/** What the users of Many2OneChannel may rely on, for every run and any number of writers. */
module Many2OneTheorems {
  import opened Wrappers
  import opened Sums
  import opened Many2One
  import opened Many2OneInvariant

  ghost predicate Reachable(s: State) {
    exists n: nat, ls: seq<Label> :: Run(Init(n), ls, s)
  }

  lemma ReachableInv(s: State)
    requires Reachable(s)
    ensures Inv(s)
  {
    var n: nat, ls :| Run(Init(n), ls, s);
    InitOk(n);
    hide Inv;
    RunKeeps(Init(n), ls, s);
  }

  lemma {:induction false} RunAppend(s: State, ls: seq<Label>, t: State, l: Label)
    requires Run(s, ls, t) && Can(t, l)
    ensures Run(s, ls + [l], Next(t, l))
    decreases |ls|
  {
    if ls != [] {
      assert (ls + [l])[1..] == ls[1..] + [l];
      RunAppend(Next(s, ls[0]), ls[1..], t, l);
    } else {
      assert Run(Next(s, l), (ls + [l])[1..], Next(s, l));
    }
  }

  lemma ReachableStep(s: State, l: Label)
    requires Reachable(s) && Can(s, l)
    ensures Reachable(Next(s, l))
  {
    var n: nat, ls :| Run(Init(n), ls, s);
    RunAppend(Init(n), ls, s, l);
  }

  // ---------- Data ----------

  /** Every read copies the buffer of exactly one commit, in commit order; no commit is overwritten or taken twice. */
  lemma ReadsFollowCommits(s: State)
    requires Reachable(s)
    ensures |s.got| <= |s.commits| <= |s.got| + 1
    ensures s.got == s.commits[..|s.got|]
    ensures |s.commits| == |s.got| + 1 <==> s.pBuff.Some?
    ensures s.rpc.RClose? ==> s.pBuff == Some(|s.got|) && Contents(s) == s.commits[|s.got|]
    ensures s.rpc.RIdle? ==> |s.commits| == |s.got| == |s.asked|
  {
    ReachableInv(s);
  }

  /** Between the opening and the closing of a read exactly one writer commits, and it commits once. */
  lemma CommitNeedsOpenReader(s: State, l: Label)
    requires Reachable(s) && Can(s, l)
    ensures var t := Next(s, l);
            s.commits != t.commits ==>
              && Open(s.rpc) && |s.commits| == |s.got| == |t.got|
              && l.Write? && t.commits == s.commits + [s.w[l.i].buffer]
              && t.w[l.i].committed == s.w[l.i].committed + 1 == s.w[l.i].returned + 1
  {
    ReachableInv(s);
  }

  /** A cond_read never delivers a value that its guard refuses. */
  lemma CondReadsRespectGuards(s: State, k: nat)
    requires Reachable(s) && k < |s.got|
    ensures k < |s.asked|
    ensures s.asked[k].Some? ==> s.asked[k].value(s.got[k])
  {
    ReachableInv(s);
    assert s.got[k] == s.commits[k];
  }

  /** Each call of write commits its buffer once, before it returns. */
  lemma WriteCommitsOnce(s: State, i: nat)
    requires Reachable(s) && i < |s.w|
    ensures s.w[i].committed == s.w[i].returned + (if Past(s.w[i].pc) then 1 else 0)
  {
    ReachableInv(s);
  }

  function Pending(x: Writer): nat {
    if x.pc.WAsleep? || x.pc.WWoken? then 1 else 0
  }

  lemma {:induction false} CountedWhenUnlocked(w: seq<Writer>)
    requires forall i :: 0 <= i < |w| ==> !HoldsSync(w[i].pc)
    ensures Sum(w, Counted) == Sum(w, Pending)
  {
    if w != [] { CountedWhenUnlocked(w[1..]); }
  }

  /** While m_sync is free, m_ulWriter is the number of calls of write that have not committed. */
  lemma UlWriterCountsPending(s: State)
    requires Reachable(s) && s.sync == Free
    ensures s.ulWriter == Sum(s.w, Pending)
  {
    ReachableInv(s);
    CountedWhenUnlocked(s.w);
  }

  // ---------- Wake-ups ----------

  /** The hand-off through m_mxReader: the signal on m_cdReader always finds the reader asleep. */
  lemma ReaderSignalFindsReader(s: State, i: nat)
    requires Reachable(s) && i < |s.w| && s.w[i].pc.WSignal?
    ensures s.rpc.RAsleep? && s.mx == ByWriter(i) && s.sync == ByWriter(i)
  {
    ReachableInv(s);
  }

  /**
   A plain read in progress loses no wake-up: if writers wait to commit, one of them is not in the
   wait set, or the reader is about to give the signal that finds it there.
   */
  lemma NoLostWakeUp(s: State) returns (i: nat)
    requires Reachable(s) && s.bReader && s.func.None? && s.pBuff.None? && s.ulWriter > 0
    ensures i < |s.w| && Counted(s.w[i]) > 0
    ensures Awake(s.w[i]) > 0 || (s.rpc.RSignal? && s.w[i].pc.WAsleep? && ReaderCan(s, i))
  {
    ReachableInv(s);
    if s.rpc.RSignal? {
      i := SumPositive(s.w, Counted);
    } else {
      i := SumPositive(s.w, Awake);
    }
  }

  /**
   m_sync is always locked before m_mxReader: a thread that wants m_sync holds nothing, and one that
   holds m_mxReader wants nothing.
   */
  lemma LockOrder(s: State, i: nat)
    requires Reachable(s) && i < |s.w|
    ensures s.w[i].pc.WLock? || s.w[i].pc.WWoken? ==> s.sync != ByWriter(i) && s.mx != ByWriter(i)
    ensures s.rpc.RLock? || s.rpc.RLock2? ==> s.sync != ByReader && s.mx != ByReader
    ensures s.mx == ByWriter(i) ==> WriterCan(s, i)
    ensures s.mx == ByReader ==> forall k :: ReaderCan(s, k)
  {
    ReachableInv(s);
  }

  // ---------- Progress ----------

  function WriterRank(x: Writer): nat {
    match x.pc
    case WIdle => 0
    case WLeave => 1
    case WUnlockMx => 2
    case WSignal => 3
    case WLockMx => 4
    case WAsleep => 5
    case WTest => 6
    case WWoken => 7
    case WEnter => 7
    case WLock => 8
  }

  function ReaderRank(p: ReaderPc): nat {
    match p
    case RIdle => 0
    case RLeave => 1
    case RClose => 2
    case RLock2 => 3
    case RUnlockMx => 4
    case RWoken => 5
    case RAsleep => 6
    case RWait => 7
    case RUnlock => 8
    case RLockMx => 9
    case RSignal => 12
    case ROpen(_) => 13
    case RLock(_) => 14
  }

  function StepsLeft(s: State): nat {
    ReaderRank(s.rpc) + Sum(s.w, WriterRank)
  }

  lemma WriterLowersSteps(s: State, i: nat)
    requires WriterCan(s, i)
    ensures StepsLeft(WriterStep(s, i)) < StepsLeft(s)
  {
    var x := WriterStep(s, i).w[i];
    assert WriterStep(s, i).w == s.w[i := x];
    assert WriterRank(x) < WriterRank(s.w[i]);
    SumUpdate(s.w, WriterRank, i, x);
    hide WriterRank;
  }

  lemma ReaderLowersSteps(s: State, wake: nat)
    requires ReaderCan(s, wake)
    ensures StepsLeft(ReaderStep(s, wake)) < StepsLeft(s)
  {
    if s.rpc.RSignal? && wake < |s.w| && s.w[wake].pc.WAsleep? {
      SumUpdate(s.w, WriterRank, wake, s.w[wake].(pc := WWoken));
    }
  }

  /** Every step inside calls lowers the number of steps left, so a run without new calls is finite. */
  lemma InternalLowersSteps(s: State, l: Label)
    requires Internal(l) && Can(s, l)
    ensures StepsLeft(Next(s, l)) < StepsLeft(s)
  {
    hide WriterStep, ReaderStep, StepsLeft;
    match l
    case Read(wake) => ReaderLowersSteps(s, wake);
    case Write(i) => WriterLowersSteps(s, i);
    case CallRead(_) =>
    case CallWrite(_, _) =>
  }

  ghost predicate Stuck(s: State) {
    (forall i: nat :: !WriterCan(s, i)) && (forall k: nat :: !ReaderCan(s, k))
  }

  /** Only threads in wait sets are inside calls, and a plain read waits only when no write is pending. */
  predicate Settled(s: State) {
    && s.sync == Free && s.mx == Free
    && (s.rpc.RIdle? || (s.rpc.RAsleep? && s.pBuff.None?))
    && (forall i :: 0 <= i < |s.w| ==> s.w[i].pc.WIdle? || s.w[i].pc.WAsleep?)
    && (s.rpc.RAsleep? && s.func.None? ==> forall i :: 0 <= i < |s.w| ==> s.w[i].pc.WIdle?)
  }

  lemma StuckFreesMutexes(s: State)
    requires Reachable(s) && Stuck(s)
    ensures s.sync == Free && s.mx == Free
  {
    ReachableInv(s);
    if s.mx.ByWriter? { var c := WriterCan(s, s.mx.i); }
    if s.sync.ByWriter? { var c := WriterCan(s, s.sync.i); }
    if s.rpc.RSignal? && exists i :: 0 <= i < |s.w| && s.w[i].pc.WAsleep? {
      var i :| 0 <= i < |s.w| && s.w[i].pc.WAsleep?;
      var c := ReaderCan(s, i);
    } else {
      var c := ReaderCan(s, 0);
    }
  }

  /** When nothing can move inside calls, no write is pending under a plain read, and no read is half done. */
  lemma StuckIsSettled(s: State)
    requires Reachable(s) && Stuck(s)
    ensures Settled(s)
  {
    StuckFreesMutexes(s);
    ReachableInv(s);
    var c := ReaderCan(s, 0);
    forall i | 0 <= i < |s.w| ensures s.w[i].pc.WIdle? || s.w[i].pc.WAsleep? {
      var d := WriterCan(s, i);
    }
    if s.rpc.RAsleep? && s.func.None? {
      forall i | 0 <= i < |s.w| ensures s.w[i].pc.WIdle? {
        if s.w[i].pc.WAsleep? {
          SumAtLeast(s.w, Counted, i);
          var j := NoLostWakeUp(s);
          var d := WriterCan(s, j);
        }
      }
    }
  }

  /** From every state the calls in progress can be run until nothing moves. */
  lemma {:induction false} SettlingRun(s: State) returns (ls: seq<Label>, t: State)
    ensures forall i :: 0 <= i < |ls| ==> Internal(ls[i])
    ensures Run(s, ls, t) && Stuck(t)
    decreases StepsLeft(s)
  {
    hide StepsLeft, WriterCan, ReaderCan, WriterStep, ReaderStep;
    if Stuck(s) {
      ls, t := [], s;
    } else {
      var l := Movable(s);
      InternalLowersSteps(s, l);
      ls, t := SettlingRun(Next(s, l));
      assert ([l] + ls)[1..] == ls;
      ls := [l] + ls;
    }
  }

  lemma Movable(s: State) returns (l: Label)
    requires !Stuck(s)
    ensures Internal(l) && Can(s, l)
  {
    if i: nat :| WriterCan(s, i) {
      l := Write(i);
    } else {
      var k: nat :| ReaderCan(s, k);
      l := Read(k);
    }
  }
}
