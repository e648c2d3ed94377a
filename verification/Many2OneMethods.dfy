/**
 Many2OneChannel at work on its fields: read, cond_read and write as the calling thread runs them,
 with the while loop of write, while the other threads run in between.  `turns` is the schedule:
 before each step of the calling thread the others take the listed steps, as far as they can, and
 when it is over nobody else moves.  The ghost state `st` is that of the step system, and `past`
 is the run that leads there.
 */
module Many2OneMethods {
  import opened Wrappers
  import opened Many2One
  import opened Many2OneInvariant
  import opened Many2OneTheorems
  import opened Many2OneObject
  import opened Many2OneSchedule
  import opened Buffers

  // ---------- A writer among the others ----------

  /** What writer i finds after others have moved: its own record, and what m_sync protects. */
  ghost predicate WriterKept(s: State, t: State, i: nat) {
    && i < |s.w| == |t.w|
    && (t.w[i] == s.w[i] || (s.w[i].pc.WAsleep? && t.w[i] == s.w[i].(pc := WWoken)))
    && s.commits <= t.commits
    && (s.sync == ByWriter(i) ==>
          t.sync == s.sync && t.commits == s.commits && t.bReader == s.bReader && t.pBuff == s.pBuff
              && t.func == s.func)
  }

  lemma OthersKeepWriter(s: State, l: Label, i: nat)
    requires MutexOk(s) && i < |s.w| && Can(s, l) && NotWriter(l, i)
    ensures WriterKept(s, Next(s, l), i)
  {
  }

  lemma WriterKeptTwice(s: State, t: State, u: State, i: nat)
    requires WriterKept(s, t, i) && WriterKept(t, u, i)
    ensures WriterKept(s, u, i)
  {
  }

  /** One turn of writer i, seen from the state s before the others moved. */
  ghost predicate WriterAdvanced(s: State, t: State, i: nat) {
    && i < |s.w| == |t.w|
    && t.w[i].buffer == s.w[i].buffer
    && s.commits <= t.commits
    && var commits := s.w[i].pc.WTest? && !MustWait(s, s.w[i].buffer);
       && t.w[i].committed == s.w[i].committed + (if commits then 1 else 0)
       && t.w[i].returned == s.w[i].returned + (if s.w[i].pc.WLeave? then 1 else 0)
       && (commits ==> t.commits == s.commits + [s.w[i].buffer])
       && t.w[i].pc == if s.w[i].pc.WAsleep? then WTest else WriterNext(s, s.w[i])
  }

  lemma WriterAdvances(s: State, u: State, i: nat)
    requires WriterKept(s, u, i) && MutexOk(s) && WriterCan(u, i)
    ensures WriterAdvanced(s, WriterStep(u, i), i)
  {
  }

  // ---------- The reader among the others ----------

  ghost predicate ReaderKept(s: State, t: State) {
    && (t.rpc == s.rpc || (s.rpc.RAsleep? && t.rpc.RWoken?))
    && t.got == s.got && t.asked == s.asked && t.func == s.func
  }

  lemma OthersKeepReader(s: State, l: Label)
    requires Can(s, l) && NotReader(l)
    ensures ReaderKept(s, Next(s, l))
  {
  }

  /** One turn of the reader, seen from the state s before the others moved. */
  ghost predicate ReaderAdvanced(s: State, t: State) {
    && (if s.rpc.RClose? then |t.got| == |s.got| + 1 && t.got[..|s.got|] == s.got else t.got == s.got)
    && t.asked == (if s.rpc.ROpen? then s.asked + [s.rpc.test] else s.asked)
    && (!s.rpc.RClose? ==> t.func == if s.rpc.ROpen? then s.rpc.test else s.func)
    && match s.rpc
       case RIdle => false
       case RLock(f) => t.rpc == ROpen(f)
       case ROpen(_) => t.rpc.RSignal? || t.rpc.RLockMx?
       case RSignal => t.rpc.RLockMx?
       case RLockMx => t.rpc.RUnlock?
       case RUnlock => t.rpc.RWait?
       case RWait => t.rpc.RAsleep?
       case RAsleep => t.rpc.RUnlockMx?
       case RWoken => t.rpc.RUnlockMx?
       case RUnlockMx => t.rpc.RLock2?
       case RLock2 => t.rpc.RClose?
       case RClose => t.rpc.RLeave?
       case RLeave => t.rpc.RIdle?
  }

  lemma ReaderAdvances(s: State, u: State, wake: nat)
    requires ReaderKept(s, u) && ReaderCan(u, wake)
    ensures ReaderAdvanced(s, ReaderStep(u, wake))
  {
  }

  lemma NextKeeps(s: State, l: Label)
    requires Inv(s) && Can(s, l)
    ensures Inv(Next(s, l))
  {
    if Internal(l) { StepKeeps(s, l); } else { CallKeeps(s, l); }
  }

  /** Writer i is inside write and cannot move. */
  predicate WriterBlocked(s: State, i: nat) {
    i < |s.w| && !s.w[i].pc.WIdle? && !WriterCan(s, i)
  }

  /** The reader is inside its call and cannot move. */
  ghost predicate ReaderBlocked(s: State) {
    !s.rpc.RIdle? && forall k: nat :: !ReaderCan(s, k)
  }

  /** The run b continues the run a with steps of one thread and of the others. */
  ghost predicate Continues(a: seq<Label>, b: seq<Label>, mine: Label -> bool) {
    a <= b && forall n :: |a| <= n < |b| ==> mine(b[n])
  }

  lemma ContinuesTwice(a: seq<Label>, b: seq<Label>, c: seq<Label>, mine: Label -> bool)
    requires Continues(a, b, mine) && Continues(b, c, mine)
    ensures Continues(a, c, mine)
  {
  }

  ghost function OfWriter(i: nat): Label -> bool {
    (l: Label) => l == Label.Write(i) || NotWriter(l, i)
  }

  ghost function OfReader(): Label -> bool {
    (l: Label) => l.Read? || NotReader(l)
  }

  /** In t writer i has made the test of the loop since s: it waits, or it has just committed. */
  ghost predicate Tested(s: State, t: State, i: nat) {
    && i < |s.w| == |t.w|
    && t.w[i].buffer == s.w[i].buffer && t.w[i].returned == s.w[i].returned
    && |s.commits| <= |t.commits|
    && if t.w[i].pc.WLockMx? then
         && t.w[i].committed == s.w[i].committed + 1
         && |s.commits| < |t.commits| && t.commits[|t.commits| - 1] == s.w[i].buffer
       else t.w[i].pc.WAsleep? && t.w[i].committed == s.w[i].committed
  }

  lemma WriterEffect(s: State, i: nat)
    requires WriterCan(s, i)
    ensures var t := WriterStep(s, i);
            && |t.w| == |s.w| && t.w[i].buffer == s.w[i].buffer
            && (!s.w[i].pc.WIdle? && t.w[i].pc.WIdle? ==> s.w[i].pc.WLeave?)
            && (forall j :: 0 <= j < |s.w| && j != i ==> t.w[j] == s.w[j])
            && ReaderAt(t.rpc) == ReaderAt(s.rpc)
  {
  }

  lemma ReaderEffect(s: State, wake: nat)
    ensures var t := ReaderStep(s, wake);
            && |t.w| == |s.w|
            && forall j :: 0 <= j < |s.w| ==>
                 && WriterAt(t.w[j].pc) == WriterAt(s.w[j].pc) && t.w[j].buffer == s.w[j].buffer
                 && t.w[j].pc.WIdle? == s.w[j].pc.WIdle?
  {
  }

  lemma ClosingHasBuffer(s: State)
    requires Inv(s)
    ensures s.rpc.RClose? ==> s.pBuff.Some?
  {
  }

  class Threads {
    const ch: Many2OneChannel
    var ats: seq<WriterPc>        // where the writers are
    var buffers: seq<Buffer?>     // what their last calls were given
    var rat: ReaderPc             // where the reader is
    var turns: seq<Turn>
    ghost const writers: nat
    ghost var st: State
    ghost var past: seq<Label>
    ghost var who: Who            // the thread whose call is running
    ghost var origin: Config      // where it was right after the call
    ghost var steps: nat          // the steps that it has taken, or waited for, since then

    ghost predicate WriterLinked(x: Writer, at: WriterPc, buffer: Buffer?) {
      at == WriterAt(x.pc) && (!x.pc.WIdle? ==> buffer != null && buffer.data == x.buffer)
    }

    /** The fields show the state s. */
    ghost predicate Linked(s: State)
      reads this`ats, this`buffers, this`rat, ch
    {
      && ch.Shows(s) && rat == ReaderAt(s.rpc)
      && |ats| == |buffers| == |s.w|
      && forall i :: 0 <= i < |s.w| ==> WriterLinked(s.w[i], ats[i], buffers[i])
    }

    ghost predicate Valid()
      reads this`ats, this`buffers, this`rat, this`st, this`past, ch
    {
      Linked(st) && Run(Init(writers), past, st) && Inv(st)
    }

    ghost function Here(): Config
      reads this`st, this`turns, this`past
    {
      Config(st, turns, past)
    }

    /** Threads have moved since the origin as the schedule says. */
    ghost predicate OnSchedule()
      reads this`st, this`turns, this`past, this`who, this`origin, this`steps
    {
      Here() == Drive(who, origin, steps)
    }

    lemma OnScheduleMeans()
      requires OnSchedule()
      ensures Driven(who, origin, Here())
    {
    }

    constructor (writers: nat, turns: seq<Turn>)
      ensures Valid() && st == Init(writers) && past == [] && this.turns == turns && fresh(ch)
    {
      ch := new Many2OneChannel(writers);
      ats := seq(writers, _ => WIdle);
      buffers := seq(writers, _ => null);
      rat := RIdle;
      this.turns := turns;
      this.writers := writers;
      st := Init(writers);
      past := [];
      new;
      InitOk(writers);
      hide Inv;
    }

    /** One step of the step system has been taken on the fields. */
    ghost method Tick(l: Label)
      requires Run(Init(writers), past, st) && Inv(st) && Can(st, l) && Linked(Next(st, l))
      modifies this`st, this`past
      ensures Valid() && Can(old(st), l) && st == Next(old(st), l) && past == old(past) + [l]
    {
      NextKeeps(st, l);
      hide Next, Inv;
      RunAppend(Init(writers), past, st, l);
      past := past + [l];
      st := Next(st, l);
    }

    // ---------- Single steps ----------

    /** Writer i runs on, if it can. */
    method ResumeWriter(i: nat) returns (ran: bool)
      requires Valid() && i < |st.w| && !st.w[i].pc.WIdle?
      modifies this`ats, this`st, this`past, ch
      ensures Valid() && (ran <==> WriterCan(old(st), i))
      ensures ran ==> st == WriterStep(old(st), i) && past == old(past) + [Label.Write(i)]
      ensures !ran ==> st == old(st) && past == old(past)
    {
      hide Inv, Run, WriterStep, WriterCan, Many2OneChannel.Shows;
      var next;
      if ats[i].WLock? || ats[i].WEnter? || ats[i].WTest? || ats[i].WAsleep? {
        ran, next := ch.Write(i, ats[i], buffers[i], st);
      } else {
        ran, next := ch.FinishWrite(i, ats[i], st);
      }
      if ran {
        ats := ats[i := next];
        WriterEffect(st, i);
        Tick(Label.Write(i));
      }
    }

    /** The reader runs on, if it can. */
    method ResumeReader(wake: nat) returns (ran: bool, copied: Option<int>)
      requires Valid() && !st.rpc.RIdle?
      modifies this`rat, this`st, this`past, ch
      ensures Valid() && (ran <==> ReaderCan(old(st), wake))
      ensures ran ==> st == ReaderStep(old(st), wake) && past == old(past) + [Label.Read(wake)]
      ensures !ran ==> st == old(st) && past == old(past)
      ensures ran && old(st).rpc.RClose? ==> copied.Some? && st.got == old(st).got + [copied.value]
    {
      hide Inv, Run, ReaderStep, ReaderCan, Many2OneChannel.Shows;
      ClosingHasBuffer(st);
      copied := None;
      var next;
      if rat.RLock? || rat.ROpen? || rat.RSignal? || rat.RLockMx? || rat.RUnlock? || rat.RWait? {
        ran, next := ch.Read(rat, wake, st);
      } else {
        ran, next, copied := ch.FinishRead(rat, wake, st);
      }
      if ran {
        rat := next;
        ReaderEffect(st, wake);
        Tick(Label.Read(wake));
      }
    }

    /** Writer i calls write with a buffer that holds v. */
    method WriterCalls(i: nat, v: int)
      requires Valid() && i < |st.w| && st.w[i].pc.WIdle?
      modifies this`ats, this`buffers, this`st, this`past
      ensures Valid() && st == Next(old(st), CallWrite(i, v)) && past == old(past) + [CallWrite(i, v)]
    {
      hide Inv, Run;
      var buffer := new Buffer(v);
      buffers := buffers[i := buffer];
      ats := ats[i := WLock];
      Tick(CallWrite(i, v));
    }

    /** The reader calls read, or cond_read with a guard. */
    method ReaderCalls(test: Option<Test>)
      requires Valid() && st.rpc.RIdle?
      modifies this`rat, this`st, this`past
      ensures Valid() && st == Next(old(st), CallRead(test)) && past == old(past) + [CallRead(test)]
    {
      hide Inv, Run;
      rat := RLock(test);
      Tick(CallRead(test));
    }

    /** The step l, if it is possible. */
    method Other(l: Label) returns (ran: bool)
      requires Valid()
      modifies this`ats, this`buffers, this`rat, this`st, this`past, ch
      ensures Valid()
      ensures ran ==> Can(old(st), l) && st == Next(old(st), l) && past == old(past) + [l]
      ensures !ran ==> !Can(old(st), l) && st == old(st) && past == old(past)
    {
      hide Inv, Run;
      ran := false;
      match l
      case Read(wake) =>
        if !rat.RIdle? {
          hide Linked;
          var copied;
          ran, copied := ResumeReader(wake);
        }
      case Write(i) =>
        if i < |ats| && !ats[i].WIdle? {
          hide Linked;
          ran := ResumeWriter(i);
        }
      case CallRead(test) =>
        if rat.RIdle? {
          ran := true;
          hide Linked;
          ReaderCalls(test);
        }
      case CallWrite(i, v) =>
        if i < |ats| && ats[i].WIdle? {
          ran := true;
          hide Linked;
          WriterCalls(i, v);
        }
    }

    // ---------- write ----------

    /** Others take the steps of one turn, while writer i is in its call. */
    method OthersThanWriter(i: nat, ls: seq<Label>)
      requires Valid() && i < |st.w|
      modifies this`ats, this`buffers, this`rat, this`st, this`past, ch
      ensures Valid() && i < |st.w| && WriterKept(old(st), st, i) && Continues(old(past), past, OfWriter(i))
      ensures st == Taken(Writing(i), old(st), ls).0 && past == old(past) + Taken(Writing(i), old(st), ls).1
    {
      hide Linked, Run, Next, Can, NotWriter, Inv;
      for n := 0 to |ls|
        invariant Valid() && WriterKept(old(st), st, i) && Continues(old(past), past, OfWriter(i))
        invariant st == Taken(Writing(i), old(st), ls[..n]).0
        invariant past == old(past) + Taken(Writing(i), old(st), ls[..n]).1
      {
        assert ls[..n + 1][..n] == ls[..n];
        if NotWriter(ls[n], i) {
          ghost var s := st;
          var ran := Other(ls[n]);
          if ran {
            InvMutex(s);
            OthersKeepWriter(s, ls[n], i);
            WriterKeptTwice(old(st), s, st, i);
          }
        }
      }
      assert ls[..|ls|] == ls;
    }

    /** Where the next step of the running call leads. */
    lemma Due()
      requires OnSchedule()
      ensures Moved(who, Here()) == Moved(who, Drive(who, origin, steps))
    {
    }

    /** The running call has taken its step, or has found the schedule ended. */
    ghost method Steps(goal: Config)
      requires Valid() && Here() == goal == Moved(who, Drive(who, origin, steps))
      modifies this`steps
      ensures Valid() && OnSchedule()
    {
      steps := steps + 1;
    }

    /** Writer i runs on, if it can, after the others have moved since s. */
    method TryWriter(i: nat, ghost s: State) returns (ok: bool, next: WriterPc)
      requires Valid() && MutexOk(s) && WriterKept(s, st, i) && !s.w[i].pc.WIdle?
      modifies this`ats, this`st, this`past, ch
      ensures Valid() && Continues(old(past), past, OfWriter(i))
      ensures ok ==> WriterAdvanced(s, st, i) && next == WriterAt(st.w[i].pc) && WriterCan(old(st), i)
      ensures !ok ==> st == old(st) && past == old(past) && !Can(st, Label.Write(i)) && WriterBlocked(st, i)
      ensures ok ==> Can(old(st), Label.Write(i))
      ensures ok ==> st == Next(old(st), Label.Write(i)) && past == old(past) + [Label.Write(i)]
    {
      ghost var u := st;
      ok := ResumeWriter(i);
      if ok { WriterAdvances(s, u, i); }
      hide Run, WriterStep, WriterCan, WriterAdvanced, Inv, MutexOk, Linked;
      next := Place(i);
    }

    /** One turn of the others, and the next step of writer i if that makes it possible. */
    method TurnWriter(i: nat, ghost s: State) returns (ok: bool, next: WriterPc)
      requires Valid() && who == Writing(i) && turns != []
      requires MutexOk(s) && i < |st.w| && WriterKept(s, st, i) && !s.w[i].pc.WIdle?
      modifies this, ch
      ensures Valid() && who == old(who) && origin == old(origin) && steps == old(steps)
      ensures |turns| == |old(turns)| - 1 && Continues(old(past), past, OfWriter(i))
      ensures Moved(who, old(Here())) == if ok then Here() else Moved(who, Here())
      ensures ok ==> WriterAdvanced(s, st, i) && next == WriterAt(st.w[i].pc)
      ensures !ok ==> i < |st.w| && WriterKept(s, st, i)
    {
      hide Run, WriterCan, WriterAdvanced, Inv, MutexOk, Linked, OfWriter, WriterBlocked;
      hide WriterKept, Continues, Taken, Moved, Can, Next, Attempt;
      MovedTurn(who, Here());
      ghost var was, a := st, past;
      var ls := turns[0].others;
      turns := turns[1..];
      OthersThanWriter(i, ls);
      WriterKeptTwice(s, was, st, i);
      ghost var b := past;
      ok, next := TryWriter(i, s);
      ContinuesTwice(a, b, past, OfWriter(i));
    }

    /** The next step of writer i when the schedule has ended, if it is possible. */
    method LastWriter(i: nat, ghost s: State) returns (ok: bool, next: WriterPc)
      requires Valid() && who == Writing(i) && turns == []
      requires MutexOk(s) && i < |st.w| && WriterKept(s, st, i) && !s.w[i].pc.WIdle?
      modifies this`ats, this`st, this`past, ch
      ensures Valid() && Continues(old(past), past, OfWriter(i)) && Here() == Moved(who, old(Here()))
      ensures ok ==> WriterAdvanced(s, st, i) && next == WriterAt(st.w[i].pc) && WriterCan(old(st), i)
      ensures !ok ==> WriterBlocked(st, i)
    {
      hide Run, WriterCan, WriterAdvanced, Inv, MutexOk, Linked, OfWriter, WriterBlocked;
      hide WriterKept, Continues, Moved, Can, Next, Attempt;
      MovedLast(who, Here());
      ok, next := TryWriter(i, s);
    }

    /**
     The next step of writer i, as soon as it is possible; false if it is still blocked when the
     schedule has ended.
     */
    method GoWriter(i: nat) returns (ok: bool, next: WriterPc)
      requires Valid() && OnSchedule() && who == Writing(i) && i < |st.w| && !st.w[i].pc.WIdle?
      modifies this, ch
      ensures Valid() && OnSchedule() && who == old(who) && origin == old(origin)
      ensures Continues(old(past), past, OfWriter(i))
      ensures |turns| <= |old(turns)|
      ensures ok ==> WriterAdvanced(old(st), st, i) && next == WriterAt(st.w[i].pc)
      ensures ok ==> |turns| < |old(turns)| || WriterCan(old(st), i)
      ensures !ok ==> turns == [] && WriterBlocked(st, i)
    {
      assert MutexOk(st) by { InvMutex(st); }
      assert WriterKept(st, st, i) && Continues(past, past, OfWriter(i));
      hide Valid, WriterCan, WriterAdvanced, MutexOk, OfWriter, WriterBlocked;
      hide WriterKept, Continues, Drive, Moved, Can, Next, Attempt, OnSchedule;
      ghost var goal := Moved(who, Here());
      Due();
      while turns != []
        invariant Valid() && i < |st.w| && WriterKept(old(st), st, i) && Continues(old(past), past, OfWriter(i))
        invariant who == old(who) && origin == old(origin) && steps == old(steps)
        invariant Moved(who, Here()) == goal
        invariant |turns| < |old(turns)| || (|turns| == |old(turns)| && st == old(st))
        decreases |turns|
      {
        ghost var a := past;
        ok, next := TurnWriter(i, old(st));
        ContinuesTwice(old(past), a, past, OfWriter(i));
        if ok {
          Steps(goal);
          return;
        }
      }
      ghost var a := past;
      ok, next := LastWriter(i, old(st));
      ContinuesTwice(old(past), a, past, OfWriter(i));
      Steps(goal);
    }

    /** Where writer i is. */
    method Place(i: nat) returns (at: WriterPc)
      requires Valid() && i < |st.w|
      ensures at == WriterAt(st.w[i].pc)
    {
      hide Run, Inv;
      at := ats[i];
    }

    /** write up to the end of its while loop, and the commit, which takes the place `slot` among all commits. */
    method Commit(i: nat) returns (ok: bool, ghost slot: nat)
      requires Valid() && OnSchedule() && who == Writing(i) && i < |st.w| && st.w[i].pc.WLock?
      modifies this, ch
      ensures Valid() && OnSchedule() && who == old(who) && origin == old(origin)
      ensures Continues(old(past), past, OfWriter(i))
      ensures !ok ==> turns == [] && WriterBlocked(st, i)
      ensures ok ==>
                && i < |st.w| && st.w[i] == old(st).w[i].(pc := WLockMx, committed := old(st).w[i].committed + 1)
                && |old(st).commits| <= slot < |st.commits| && st.commits[slot] == old(st).w[i].buffer
    {
      hide Inv, Run, OnSchedule, OfWriter, WriterBlocked, MustWait, Linked;
      slot := 0;
      var next;
      ok, next := GoWriter(i);                  // lock m_sync
      if !ok { return; }
      ok, next := GoWriter(i);                  // ++m_ulWriter
      if !ok { return; }
      ok, next := GoWriter(i);                  // the condition of the loop
      if !ok { return; }
      while next.WAsleep?
        invariant Valid() && OnSchedule() && who == old(who) && origin == old(origin)
        invariant Continues(old(past), past, OfWriter(i))
        invariant Tested(old(st), st, i) && next == WriterAt(st.w[i].pc)
        decreases |turns|
      {
        ok, next := GoWriter(i);                // wait, and wake up with m_sync
        if !ok { return; }
        ok, next := GoWriter(i);                // the condition of the loop
        if !ok { return; }
      }
      slot := |st.commits| - 1;
    }

    /** write after its commit. */
    method Leave(i: nat) returns (ok: bool)
      requires Valid() && OnSchedule() && who == Writing(i) && i < |st.w| && st.w[i].pc.WLockMx?
      modifies this, ch
      ensures Valid() && OnSchedule() && who == old(who) && origin == old(origin)
      ensures Continues(old(past), past, OfWriter(i))
      ensures !ok ==> turns == [] && WriterBlocked(st, i)
      ensures ok ==>
                && i < |st.w| && st.w[i] == old(st).w[i].(pc := WIdle, returned := old(st).w[i].returned + 1)
                && old(st).commits <= st.commits
    {
      hide Inv, Run, OnSchedule, OfWriter, WriterBlocked, MustWait, Linked;
      var next;
      ok, next := GoWriter(i);                  // lock m_mxReader
      if !ok { return; }
      ok, next := GoWriter(i);                  // signal m_cdReader
      if !ok { return; }
      ok, next := GoWriter(i);                  // unlock m_mxReader
      if !ok { return; }
      ok, next := GoWriter(i);                  // --m_ulWriter, unlock m_sync
    }

    /** The configuration right after writer i has called write with a buffer that holds v. */
    ghost function CalledWrite(i: nat, v: int): Config
      requires i < |st.w| && st.w[i].pc.WIdle?
      reads this`st, this`turns, this`past
    {
      Config(Next(st, CallWrite(i, v)), turns, past + [CallWrite(i, v)])
    }

    /** The schedule begins to drive the call of the thread. */
    ghost method Starts(thread: Who)
      modifies this`who, this`origin, this`steps
      ensures OnSchedule() && who == thread && origin == Here()
    {
      who, origin, steps := thread, Here(), 0;
    }

    /**
     write, called by writer i with a buffer that holds v.  If it returns, the buffer has been
     installed once, after everything committed before the call, for a read whose guard takes it.
     If it does not, the schedule has left it blocked; and when nobody else can move either, no
     plain read is waiting.
     */
    method Write(i: nat, v: int) returns (ok: bool, ghost slot: nat)
      requires Valid() && i < |st.w| && st.w[i].pc.WIdle?
      modifies this, ch
      ensures Valid() && i < |st.w| && Continues(old(past) + [CallWrite(i, v)], past, OfWriter(i))
      ensures Driven(Writing(i), old(CalledWrite(i, v)), Here())
      ensures !ok ==> turns == [] && WriterBlocked(st, i)
      ensures !ok && Stuck(st) ==> st.rpc.RIdle? || (st.rpc.RAsleep? && st.func.Some?)
      ensures ok ==>
                && st.w[i] == Writer(WIdle, v, old(st).w[i].committed + 1, old(st).w[i].returned + 1)
                && |old(st).commits| <= slot < |st.commits| && st.commits[slot] == v
                && slot < |st.asked| && (st.asked[slot].Some? ==> st.asked[slot].value(v))
    {
      hide Inv, Run, OfWriter, MustWait, Linked, Stuck, OnSchedule;
      WriterCalls(i, v);
      Starts(Writing(i));
      ok, slot := Commit(i);
      if ok {
        ok := Leave(i);
      }
      OnScheduleMeans();
      if ok {
        CommitsAreGuarded(st, slot);
      } else if Stuck(st) {
        BlockedWriter(i);
      }
    }

    lemma BlockedWriter(i: nat)
      requires Valid() && WriterBlocked(st, i) && Stuck(st)
      ensures st.rpc.RIdle? || (st.rpc.RAsleep? && st.func.Some?)
    {
      assert Reachable(st);
      hide Reachable, Stuck, Inv, Run, Linked, WriterCan;
      StuckIsSettled(st);
    }

    // ---------- read and cond_read ----------

    /** Others take the steps of one turn, while the reader is in its call. */
    method OthersThanReader(ls: seq<Label>)
      requires Valid()
      modifies this`ats, this`buffers, this`rat, this`st, this`past, ch
      ensures Valid() && ReaderKept(old(st), st) && Continues(old(past), past, OfReader())
      ensures st == Taken(Reading, old(st), ls).0 && past == old(past) + Taken(Reading, old(st), ls).1
    {
      hide Linked, Run, Next, Can, NotReader, Inv;
      for n := 0 to |ls|
        invariant Valid() && ReaderKept(old(st), st) && Continues(old(past), past, OfReader())
        invariant st == Taken(Reading, old(st), ls[..n]).0
        invariant past == old(past) + Taken(Reading, old(st), ls[..n]).1
      {
        assert ls[..n + 1][..n] == ls[..n];
        if NotReader(ls[n]) {
          ghost var s := st;
          var ran := Other(ls[n]);
          if ran { OthersKeepReader(s, ls[n]); }
        }
      }
      assert ls[..|ls|] == ls;
    }

    /** The first writer that a signal can wake, if one waits. */
    method Wakeable() returns (wake: nat)
      requires Valid()
      ensures wake == FirstAsleep(st.w, 0)
      ensures (exists k: nat :: ReaderCan(st, k)) ==> ReaderCan(st, wake)
    {
      hide Inv, Run;
      for k := 0 to |ats|
        invariant FirstAsleep(st.w, k) == FirstAsleep(st.w, 0)
        invariant forall j :: 0 <= j < k ==> !st.w[j].pc.WAsleep?
      {
        if k in ch.m_cond {
          return k;
        }
      }
      return 0;
    }

    /**
     The next step of the reader, as soon as it is possible; false if it is still blocked when the
     schedule has ended.
     */
    method GoReader() returns (ok: bool, next: ReaderPc, copied: Option<int>)
      requires Valid() && OnSchedule() && who == Reading && !st.rpc.RIdle?
      modifies this, ch
      ensures Valid() && OnSchedule() && who == old(who) && origin == old(origin)
      ensures Continues(old(past), past, OfReader())
      ensures ok ==> ReaderAdvanced(old(st), st) && next == ReaderAt(st.rpc)
      ensures ok && old(st).rpc.RClose? ==> copied.Some? && st.got == old(st).got + [copied.value]
      ensures !ok ==> turns == [] && ReaderBlocked(st) && ReaderKept(old(st), st)
    {
      hide Run, ReaderStep, ReaderCan, ReaderAdvanced, Inv, Linked, Taken, Drive;
      ghost var goal := Moved(who, Here());
      Due();
      while turns != []
        invariant Valid() && ReaderKept(old(st), st) && Continues(old(past), past, OfReader())
        invariant who == old(who) && origin == old(origin) && steps == old(steps)
        invariant Moved(who, Here()) == goal
        decreases |turns|
      {
        ghost var here := Here();
        var turn := turns[0];
        turns := turns[1..];
        OthersThanReader(turn.others);
        assert Here() == AfterTurn(who, here);
        ghost var u := st;
        ok, copied := ResumeReader(turn.wake);
        if ok {
          ReaderAdvances(old(st), u, turn.wake);
          next := ReaderPlace();
          Steps(goal);
          return;
        }
      }
      ghost var u := st;
      var wake := Wakeable();
      ok, copied := ResumeReader(wake);
      if ok { ReaderAdvances(old(st), u, wake); }
      next := ReaderPlace();
      Steps(goal);
    }

    /** Where the reader is. */
    method ReaderPlace() returns (at: ReaderPc)
      requires Valid()
      ensures at == ReaderAt(st.rpc)
    {
      hide Run, Inv;
      at := rat;
    }

    /** The schedule has ended, and the reader is blocked; if it sleeps, it waits for what test takes. */
    ghost predicate GivenUp(test: Option<Test>)
      reads this`turns, this`st
    {
      turns == [] && ReaderBlocked(st) && (st.rpc.RAsleep? || st.rpc.RWoken? ==> st.func == test)
    }

    /** The first part of read, up to the signal. */
    method Open(test: Option<Test>) returns (ok: bool)
      requires Valid() && OnSchedule() && who == Reading && st.rpc == RLock(test)
      modifies this, ch
      ensures Valid() && OnSchedule() && who == old(who) && origin == old(origin)
      ensures Continues(old(past), past, OfReader())
      ensures !ok ==> GivenUp(test)
      ensures ok ==> st.rpc.RLockMx? && st.func == test && st.got == old(st).got && st.asked == old(st).asked + [test]
    {
      hide Inv, Run, OnSchedule, OfReader, ReaderBlocked, Linked;
      var next, copied;
      ok, next, copied := GoReader();           // lock m_sync
      if !ok { return; }
      ok, next, copied := GoReader();           // set m_func and m_bReader
      if ok && next.RSignal? {
        ok, next, copied := GoReader();         // signal m_cond
      }
    }

    /** The middle part of read: from m_sync to m_mxReader, the wait, and back. */
    method HandOver(ghost test: Option<Test>) returns (ok: bool)
      requires Valid() && OnSchedule() && who == Reading && st.rpc.RLockMx? && st.func == test
      modifies this, ch
      ensures Valid() && OnSchedule() && who == old(who) && origin == old(origin)
      ensures Continues(old(past), past, OfReader())
      ensures !ok ==> GivenUp(test)
      ensures ok ==> st.rpc.RClose? && st.got == old(st).got && st.asked == old(st).asked
    {
      hide Inv, Run, OnSchedule, OfReader, ReaderBlocked, Linked;
      var next, copied;
      ok, next, copied := GoReader();           // lock m_mxReader
      if !ok { return; }
      ok, next, copied := GoReader();           // unlock m_sync
      if !ok { return; }
      ok, next, copied := GoReader();           // wait on m_cdReader
      if !ok { return; }
      ok, next, copied := GoReader();           // wake up with m_mxReader
      if !ok { return; }
      ok, next, copied := GoReader();           // unlock m_mxReader
      if !ok { return; }
      ok, next, copied := GoReader();           // lock m_sync
    }

    /** The last part of read, with m_sync held again. */
    method Close(ghost test: Option<Test>) returns (ok: bool, copied: Option<int>)
      requires Valid() && OnSchedule() && who == Reading && st.rpc.RClose?
      modifies this, ch
      ensures Valid() && OnSchedule() && who == old(who) && origin == old(origin)
      ensures Continues(old(past), past, OfReader())
      ensures !ok ==> GivenUp(test)
      ensures ok ==> copied.Some? && st.got == old(st).got + [copied.value]
      ensures ok ==> st.rpc.RIdle? && st.asked == old(st).asked
    {
      hide Inv, Run, OnSchedule, OfReader, ReaderBlocked, Linked;
      var next, other;
      ok, next, copied := GoReader();           // copy and close
      if ok {
        ok, next, other := GoReader();          // unlock m_sync
      }
    }

    /** The configuration right after the call of read, or of cond_read. */
    ghost function CalledRead(test: Option<Test>): Config
      requires st.rpc.RIdle?
      reads this`st, this`turns, this`past
    {
      Config(Next(st, CallRead(test)), turns, past + [CallRead(test)])
    }

    /**
     read, or cond_read with its guard.  If it returns, what it has copied is the next commit, and
     the guard takes it.  If it does not, the schedule has left it blocked; and when nobody else
     can move either, a plain read waits because no write is pending.
     */
    method Read(test: Option<Test>) returns (r: Option<int>)
      requires Valid() && st.rpc.RIdle?
      modifies this, ch
      ensures Valid() && Continues(old(past) + [CallRead(test)], past, OfReader())
      ensures Driven(Reading, old(CalledRead(test)), Here())
      ensures r.None? ==> GivenUp(test)
      ensures r.None? && test.None? && Stuck(st) ==> forall i :: 0 <= i < |st.w| ==> st.w[i].pc.WIdle?
      ensures r.Some? ==>
                && st.rpc.RIdle? && st.got == old(st).got + [r.value] && st.got == st.commits
                && (test.Some? ==> test.value(r.value))
    {
      hide Inv, Run, OfReader, Linked, Stuck, ReaderBlocked, OnSchedule;
      ReadsAreCommits(st);
      ReaderCalls(test);
      Starts(Reading);
      var ok := Open(test);
      if ok {
        ok := HandOver(test);
      }
      if ok {
        ok, r := Close(test);
      }
      OnScheduleMeans();
      if ok {
        ReadsAreCommits(st);
        CommitsAreGuarded(st, |st.got| - 1);
      } else {
        r := None;
        if Stuck(st) { BlockedReader(test); }
      }
    }

    lemma BlockedReader(test: Option<Test>)
      requires Valid() && GivenUp(test) && Stuck(st)
      ensures test.None? ==> forall i :: 0 <= i < |st.w| ==> st.w[i].pc.WIdle?
    {
      assert Reachable(st);
      hide Reachable, Stuck, Inv, Run, Linked;
      StuckIsSettled(st);
    }
  }

  lemma InvMutex(s: State)
    requires Inv(s)
    ensures MutexOk(s)
  {
  }

  lemma CommitsAreGuarded(s: State, k: nat)
    requires Inv(s) && k < |s.commits|
    ensures k < |s.asked| && (s.asked[k].Some? ==> s.asked[k].value(s.commits[k]))
  {
  }

  lemma ReadsAreCommits(s: State)
    requires Inv(s) && s.rpc.RIdle?
    ensures s.got == s.commits && |s.asked| == |s.got|
  {
  }
}
