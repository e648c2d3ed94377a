/** The invariant of Many2OneChannel, kept by every step. */
module Many2OneInvariant {
  import opened Wrappers
  import opened Sums
  import opened Many2One

  predicate ReaderHoldsSync(p: ReaderPc) {
    p.ROpen? || p.RSignal? || p.RLockMx? || p.RUnlock? || p.RClose? || p.RLeave?
  }

  predicate ReaderHoldsMx(p: ReaderPc) {
    p.RUnlock? || p.RWait? || p.RUnlockMx?
  }

  predicate HoldsSync(p: WriterPc) {
    p.WEnter? || p.WTest? || p.WLockMx? || p.WSignal? || p.WUnlockMx? || p.WLeave?
  }

  predicate HoldsMx(p: WriterPc) {
    p.WSignal? || p.WUnlockMx?
  }

  predicate MutexOk(s: State) {
    && (s.sync == ByReader <==> ReaderHoldsSync(s.rpc))
    && (s.mx == ByReader <==> ReaderHoldsMx(s.rpc))
    && (s.sync.ByWriter? ==> s.sync.i < |s.w| && HoldsSync(s.w[s.sync.i].pc))
    && (s.mx.ByWriter? ==> s.mx.i < |s.w| && HoldsMx(s.w[s.mx.i].pc))
    && (forall i :: 0 <= i < |s.w| ==>
          && (HoldsSync(s.w[i].pc) ==> s.sync == ByWriter(i))
          && (HoldsMx(s.w[i].pc) ==> s.mx == ByWriter(i)))
  }

  /** The reader has opened and not closed yet. */
  predicate Open(p: ReaderPc) {
    !p.RIdle? && !p.RLock? && !p.ROpen? && !p.RLeave?
  }

  /** The reader has been signalled and has not closed yet. */
  predicate Signalled(p: ReaderPc) {
    p.RWoken? || p.RUnlockMx? || p.RLock2? || p.RClose?
  }

  /** The writer has installed its buffer and has not returned yet. */
  predicate Past(p: WriterPc) {
    p.WLockMx? || p.WSignal? || p.WUnlockMx? || p.WLeave?
  }

  /** The writer that is handing over its buffer, if any, owns m_sync. */
  predicate HandOff(s: State, p: WriterPc) {
    match p
    case WLockMx => s.pBuff.Some? && (s.rpc.RWait? || s.rpc.RAsleep?)
    case WSignal => s.pBuff.Some? && s.rpc.RAsleep?
    case WUnlockMx => s.pBuff.Some? && s.rpc.RWoken?
    case WLeave => s.pBuff.Some? && Signalled(s.rpc)
    case _ => true
  }

  predicate PhaseOk(s: State) {
    && (s.bReader <==> Open(s.rpc))
    && (s.func.Some? ==> Open(s.rpc))
    && (s.pBuff.Some? ==> s.rpc.RWait? || s.rpc.RAsleep? || Signalled(s.rpc))
    && (Signalled(s.rpc) ==> s.pBuff.Some?)
    && ((s.rpc.RWait? || s.rpc.RAsleep?) && s.pBuff.Some? ==>
          s.sync.ByWriter? && s.sync.i < |s.w| && (s.w[s.sync.i].pc.WLockMx? || s.w[s.sync.i].pc.WSignal?))
    && (forall i :: 0 <= i < |s.w| ==> HandOff(s, s.w[i].pc))
  }

  /** Reads, commits and guards are in step. */
  ghost predicate DataOk(s: State) {
    && |s.commits| == |s.got| + (if s.pBuff.Some? then 1 else 0)
    && s.got == s.commits[..|s.got|]
    && (s.pBuff.Some? ==> s.pBuff.value == |s.got|)
    && |s.asked| == |s.got| + (if Open(s.rpc) then 1 else 0)
    && (Open(s.rpc) ==> s.asked[|s.got|] == s.func)
    && (forall k :: 0 <= k < |s.commits| ==> k < |s.asked| && (s.asked[k].Some? ==> s.asked[k].value(s.commits[k])))
  }

  predicate WritersOk(s: State) {
    forall i :: 0 <= i < |s.w| ==> s.w[i].committed == s.w[i].returned + (if Past(s.w[i].pc) then 1 else 0)
  }

  // ---------- Counting writers ----------

  /** Counted in m_ulWriter. */
  function Counted(x: Writer): nat {
    if x.pc.WIdle? || x.pc.WLock? || x.pc.WEnter? then 0 else 1
  }

  /** Counted, and not in the wait set of m_cond. */
  function Awake(x: Writer): nat {
    if x.pc.WAsleep? then 0 else Counted(x)
  }

  predicate CountOk(s: State) {
    s.ulWriter == Sum(s.w, Counted)
  }

  /** An open reader without a guard that has no buffer yet has a counted writer awake, if any is counted. */
  predicate AwakeOk(s: State) {
    Open(s.rpc) && !s.rpc.RSignal? && s.func.None? && s.pBuff.None? && s.ulWriter > 0 ==> Sum(s.w, Awake) > 0
  }

  ghost predicate Inv(s: State) {
    MutexOk(s) && PhaseOk(s) && DataOk(s) && WritersOk(s) && CountOk(s) && AwakeOk(s)
  }

  lemma InitOk(n: nat)
    ensures Inv(Init(n))
  {
    SumZero(Init(n).w, Counted);
  }

  // ---------- Steps of a writer ----------

  lemma WriterKeepsSync(s: State, i: nat)
    requires MutexOk(s) && WriterCan(s, i) && !HoldsMx(WriterNext(s, s.w[i])) && !HoldsMx(s.w[i].pc)
    ensures MutexOk(WriterStep(s, i))
  {
  }

  lemma WriterKeepsMx(s: State, i: nat)
    requires MutexOk(s) && WriterCan(s, i) && (HoldsMx(WriterNext(s, s.w[i])) || HoldsMx(s.w[i].pc))
    ensures MutexOk(WriterStep(s, i))
  {
  }

  lemma WriterKeepsMutex(s: State, i: nat)
    requires MutexOk(s) && WriterCan(s, i)
    ensures MutexOk(WriterStep(s, i))
  {
    hide MutexOk, WriterStep;
    if HoldsMx(WriterNext(s, s.w[i])) || HoldsMx(s.w[i].pc) { WriterKeepsMx(s, i); } else { WriterKeepsSync(s, i); }
  }

  lemma WriterKeepsPhase(s: State, i: nat)
    requires MutexOk(s) && PhaseOk(s) && WriterCan(s, i)
    ensures PhaseOk(WriterStep(s, i))
  {
  }

  lemma WriterKeepsData(s: State, i: nat)
    requires PhaseOk(s) && DataOk(s) && WriterCan(s, i)
    ensures DataOk(WriterStep(s, i))
  {
  }

  lemma WriterKeepsWriters(s: State, i: nat)
    requires WritersOk(s) && WriterCan(s, i)
    ensures WritersOk(WriterStep(s, i))
  {
  }

  lemma WriterKeepsCount(s: State, i: nat)
    requires CountOk(s) && WriterCan(s, i)
    ensures CountOk(WriterStep(s, i))
  {
    var t := WriterStep(s, i);
    assert t.w == s.w[i := t.w[i]];
    SumUpdate(s.w, Counted, i, t.w[i]);
  }

  lemma WriterKeepsAwake(s: State, i: nat)
    requires MutexOk(s) && PhaseOk(s) && CountOk(s) && AwakeOk(s) && WriterCan(s, i)
    ensures AwakeOk(WriterStep(s, i))
  {
    var t := WriterStep(s, i);
    assert t.w == s.w[i := t.w[i]];
    SumUpdate(s.w, Awake, i, t.w[i]);
    SumAtLeast(t.w, Awake, i);
  }

  // ---------- Steps of the reader ----------

  lemma ReaderKeepsMutex(s: State, wake: nat)
    requires MutexOk(s) && ReaderCan(s, wake)
    ensures MutexOk(ReaderStep(s, wake))
  {
  }

  lemma ReaderKeepsPhase(s: State, wake: nat)
    requires MutexOk(s) && PhaseOk(s) && ReaderCan(s, wake)
    ensures PhaseOk(ReaderStep(s, wake))
  {
  }

  lemma ReaderKeepsData(s: State, wake: nat)
    requires PhaseOk(s) && DataOk(s) && WritersOk(s) && ReaderCan(s, wake)
    ensures DataOk(ReaderStep(s, wake)) && WritersOk(ReaderStep(s, wake))
  {
  }

  lemma ReaderKeepsCount(s: State, wake: nat)
    requires CountOk(s) && ReaderCan(s, wake)
    ensures CountOk(ReaderStep(s, wake))
  {
    if s.rpc.RSignal? && wake < |s.w| && s.w[wake].pc.WAsleep? {
      SumUpdate(s.w, Counted, wake, s.w[wake].(pc := WWoken));
    }
  }

  lemma ReaderKeepsAwake(s: State, wake: nat)
    requires MutexOk(s) && PhaseOk(s) && CountOk(s) && AwakeOk(s) && ReaderCan(s, wake)
    ensures AwakeOk(ReaderStep(s, wake))
  {
    var t := ReaderStep(s, wake);
    if s.rpc.RSignal? {
      if wake < |s.w| && s.w[wake].pc.WAsleep? {
        SumUpdate(s.w, Awake, wake, t.w[wake]);
        SumAtLeast(t.w, Awake, wake);
      } else if s.ulWriter > 0 {
        var j := SumPositive(s.w, Counted);
        SumAtLeast(s.w, Awake, j);
      }
    }
  }

  lemma StepKeeps(s: State, l: Label)
    requires Inv(s) && Internal(l) && Can(s, l)
    ensures Inv(Next(s, l))
  {
    hide MutexOk, PhaseOk, DataOk, WritersOk, CountOk, AwakeOk, WriterStep, ReaderStep;
    match l
    case Read(wake) =>
      ReaderKeepsMutex(s, wake);
      ReaderKeepsPhase(s, wake);
      ReaderKeepsData(s, wake);
      ReaderKeepsCount(s, wake);
      ReaderKeepsAwake(s, wake);
    case Write(i) =>
      WriterKeepsMutex(s, i);
      WriterKeepsPhase(s, i);
      WriterKeepsData(s, i);
      WriterKeepsWriters(s, i);
      WriterKeepsCount(s, i);
      WriterKeepsAwake(s, i);
    case CallRead(_) =>
    case CallWrite(_, _) =>
  }

  lemma CallReadKeeps(s: State, f: Option<Test>)
    requires Inv(s) && s.rpc.RIdle?
    ensures Inv(s.(rpc := RLock(f)))
  {
  }

  lemma CallWriteKeeps(s: State, i: nat, v: int)
    requires Inv(s) && i < |s.w| && s.w[i].pc.WIdle?
    ensures Inv(Put(s, i, s.w[i].(pc := WLock, buffer := v)))
  {
    var x := s.w[i].(pc := WLock, buffer := v);
    SumUpdate(s.w, Counted, i, x);
    SumUpdate(s.w, Awake, i, x);
  }

  lemma CallKeeps(s: State, l: Label)
    requires Inv(s) && !Internal(l) && Can(s, l)
    ensures Inv(Next(s, l))
  {
    hide Inv;
    match l
    case CallRead(f) => CallReadKeeps(s, f);
    case CallWrite(i, v) => CallWriteKeeps(s, i, v);
  }

  lemma {:induction false} RunKeeps(s: State, ls: seq<Label>, t: State)
    requires Inv(s) && Run(s, ls, t)
    ensures Inv(t)
    decreases |ls|
  {
    hide Inv;
    if ls != [] {
      if Internal(ls[0]) { StepKeeps(s, ls[0]); } else { CallKeeps(s, ls[0]); }
      RunKeeps(Next(s, ls[0]), ls[1..], t);
    }
  }
}
