/**
 The objects of the library with the fields they have there.  A call of write, read, sync or
 schedule that other threads may interrupt is resumed at a boundary and runs to the next one; a
 condition variable is the set of threads that wait on it.  Each class says which record of the
 step system its fields show, and each method takes the fields where the step takes the record.
 */
module KernelObjects {
  import opened Wrappers
  import opened Guards
  import opened Choice
  import opened Buffers

  /** Where a call is resumed. */
  datatype Boundary =
    | Sem | Lock | Body | Sched | InSched | SchedSignal | SchedUnlock
    | Signal | Wait | Asleep | Copying | Post | Unlock | Done

  /** The boundary of a partner; a thread that was signalled finds itself outside the wait set. */
  function PartnerAt(p: PartnerPc): Boundary {
    match p
    case PIdle => Done
    case PSem => Sem
    case PLock => Lock
    case PBody => Body
    case PSched => Sched
    case PInSched => InSched
    case PSchedSignal => SchedSignal
    case PSchedUnlock => SchedUnlock
    case PSignal => Signal
    case PWait => Wait
    case PAsleep => Asleep
    case PWoken => Asleep
    case PPost => Post
    case PUnlock => Unlock
  }

  /** The boundary of the selecting thread inside read, sync or sync_sem. */
  function UseAt(u: Option<UsePc>): Boundary {
    if u.None? then Done else
    match u.value
    case USem => Sem
    case ULock(_) => Lock
    case UBody(_) => Body
    case USched => Sched
    case UInSched => InSched
    case USchedUnlock => SchedUnlock
    case UWait => Wait
    case UAsleep => Asleep
    case UWoken => Asleep
    case UCopy => Copying
    case USignal => Signal
    case UPost => Post
    case UUnlock => Unlock
  }

  predicate AtSchedule(at: Boundary) {
    at.Sched? || at.InSched? || at.SchedSignal? || at.SchedUnlock?
  }

  /** What a partner's step inside schedule does, apart from its counter. */
  lemma ScheduleStep(s: State, x: nat)
    requires x < |s.g| && AtSchedule(PartnerAt(s.g[x].ppc))
    ensures PartnerCan(s, x) <==> (s.g[x].ppc.PSched? ==> s.alt == AltFree)
    ensures PartnerCan(s, x) ==>
              && PartnerStep(s, x).Some?
              && var t := PartnerStep(s, x).value;
                 var picks := s.g[x].ppc.PInSched? && (s.astate == Enabling || s.astate == Waiting);
                 && |t.g| == |s.g| && t.g[x].ppc == PartnerMove(s.g[x], s.astate).ppc
                 && t.alt == (if s.g[x].ppc.PSched? then ByPartner(x)
                              else if s.g[x].ppc.PSchedUnlock? then AltFree else s.alt)
                 && t.astate == (if picks then Ready else s.astate)
                 && t.selector == (if picks then Some(x) else s.selector)
                 && (t.spc.SAsleep? <==> s.spc.SAsleep? && !s.g[x].ppc.PSchedSignal?)
  {
  }

  class Alternative {
    var m_sync: AltOwner
    var m_cond: bool            // the selecting thread is in the wait set
    var m_state: AltState
    var m_selector: object?

    /** m_state is given no initial value in the library, so any value is possible. */
    constructor (m_state: AltState)
      ensures m_sync == AltFree && !m_cond && this.m_state == m_state
    {
      m_sync, m_cond, m_selector := AltFree, false, null;
      this.m_state := m_state;
    }

    /** guards: the object of each guard number. */
    ghost predicate Shows(s: State, guards: seq<Altable>)
      reads this
    {
      && |guards| == |s.g|
      && m_sync == s.alt && m_state == s.astate
      && (m_cond <==> s.spc.SAsleep?)
      && (s.selector.Some? && s.selector.value < |guards| ==> m_selector == Address(guards[s.selector.value]))
    }

    /** schedule, called by the partner of guard x. */
    method Schedule(at: Boundary, x: nat, ghost s: State, guards: seq<Altable>) returns (ran: bool, next: Boundary)
      requires Shows(s, guards) && x < |s.g| && at == PartnerAt(s.g[x].ppc) && AtSchedule(at)
      modifies this
      ensures ran <==> PartnerCan(s, x)
      ensures ran ==>
                && Shows(PartnerStep(s, x).value, guards)
                && next == PartnerAt(PartnerStep(s, x).value.g[x].ppc)
      ensures !ran ==> Shows(s, guards)
    {
      ScheduleStep(s, x);
      hide PartnerStep, PartnerCan;
      ran := true;
      match at {
        case Sched =>
          ran, next := m_sync == AltFree, InSched;
          if ran {
            m_sync := ByPartner(x);
          }
        case InSched =>
          match m_state {
            case Enabling =>
              m_state := Ready;
              m_selector := Address(guards[x]);
              next := SchedUnlock;
            case Waiting =>
              m_state := Ready;
              m_selector := Address(guards[x]);
              next := SchedSignal;
            case Ready =>
              next := SchedUnlock;
            case Inactive =>
              next := SchedUnlock;
          }
        case SchedSignal =>
          m_cond := false;
          next := SchedUnlock;
        case SchedUnlock =>
          m_sync := AltFree;
          next := Wait;
      }
    }
  }

  class One2OneChannel {
    var m_sync: Owner
    var m_cond: set<Owner>
    var m_pBuff: Buffer?
    var m_bEmpty: bool
    var m_pAlt: Alternative?

    constructor (ghost alt: Alternative)
      ensures Shows(Fresh(Channel), false, null, alt)
    {
      m_sync, m_cond := Free, {};
      m_pBuff, m_bEmpty, m_pAlt := null, true, null;
    }

    /** reading: the reader is in the wait set; buffer: what the last call of write was given. */
    ghost predicate Shows(g: Guard, reading: bool, buffer: Buffer?, alt: Alternative)
      reads this
    {
      && g.kind.Channel?
      && m_sync == g.sync && m_bEmpty == g.bEmpty
      && m_pAlt == (if g.pAlt then alt else null)
      && (Partner in m_cond <==> g.ppc.PAsleep?) && (Selecting in m_cond <==> reading)
      && (g.sent != [] ==> buffer != null && buffer.data == g.sent[|g.sent| - 1])
      && (!g.ppc.PIdle? && !g.ppc.PLock? && !g.ppc.PBody? && g.pBuff == Some(|g.sent| - 1) ==> m_pBuff == buffer)
    }

    /** write up to its test of m_bEmpty and what follows it. */
    method Write(at: Boundary, buffer: Buffer?, ghost g: Guard, ghost reading: bool, ghost a: AltState,
        ghost alt: Alternative)
      returns (ran: bool, next: Boundary)
      requires Shows(g, reading, buffer, alt) && g.sent != []
      requires at == PartnerAt(g.ppc) && (at.Lock? || at.Body?)
      modifies this
      ensures ran <==> (g.ppc.PLock? ==> g.sync == Free)
      ensures ran ==> Shows(PartnerMove(g, a), reading, buffer, alt) && next == PartnerAt(PartnerMove(g, a).ppc)
      ensures !ran ==> Shows(g, reading, buffer, alt)
    {
      ran := true;
      match at {
        case Lock =>
          ran, next := m_sync == Free, Body;
          if ran {
            m_sync := Partner;
          }
        case Body =>
          m_pBuff := buffer;
          if m_bEmpty {
            // the reader is not here yet
            m_bEmpty := false;
            next := if m_pAlt != null then Sched else Wait;
          } else {
            // the reader waits for this buffer
            m_bEmpty := true;
            next := Signal;
          }
      }
    }

    /** The rest of write, except for what happens in schedule. */
    method FinishWrite(at: Boundary, ghost g: Guard, ghost reading: bool, ghost buffer: Buffer?, ghost a: AltState,
        ghost alt: Alternative)
      returns (ran: bool, next: Boundary)
      requires Shows(g, reading, buffer, alt)
      requires at == PartnerAt(g.ppc) && (at.Signal? || at.Wait? || at.Asleep? || at.Unlock?)
      modifies this
      ensures ran <==> !g.ppc.PAsleep? && (g.ppc.PWoken? ==> g.sync == Free)
      ensures ran ==>
                && Shows(PartnerMove(g, a), reading && !g.ppc.PSignal?, buffer, alt)
                && next == PartnerAt(PartnerMove(g, a).ppc)
      ensures !ran ==> Shows(g, reading, buffer, alt)
    {
      ran := true;
      match at {
        case Signal =>
          m_cond := m_cond - {Selecting};
          next := Wait;
        case Wait =>
          m_sync := Free;
          m_cond := m_cond + {Partner};
          next := Asleep;
        case Asleep =>
          ran, next := Partner !in m_cond && m_sync == Free, Unlock;
          if ran {
            m_sync := Partner;
          }
        case Unlock =>
          m_sync := Free;
          next := Done;
      }
    }

    /** read up to its test of m_bEmpty and what follows it; what it copies is the caller's. */
    method Read(at: Boundary, ghost u: UsePc, ghost g: Guard, ghost buffer: Buffer?, ghost alt: Alternative)
      returns (ran: bool, next: Boundary, copied: Option<int>)
      requires Shows(g, false, buffer, alt) && at == UseAt(Some(u)) && (at.Lock? || at.Body?)
      requires u.UBody? && !g.bEmpty ==> g.ppc.PAsleep? && g.sent != [] && g.pBuff == Some(|g.sent| - 1)
      modifies this
      ensures ran <==> (u.ULock? ==> g.sync == Free)
      ensures ran ==>
                && Shows(UseMove(g, u), false, buffer, alt)
                && next == UseAt(UseNext(g, u)) && UseNext(g, u) != Some(UAsleep)
                && UseMove(g, u).got == g.got + (if copied.Some? then [copied.value] else [])
      ensures !ran ==> Shows(g, false, buffer, alt) && copied.None?
    {
      ran, copied := true, None;
      match at {
        case Lock =>
          ran, next := m_sync == Free, Body;
          if ran {
            m_sync := Selecting;
          }
        case Body =>
          if m_bEmpty {
            // the writer is not here yet
            m_bEmpty := false;
            next := Wait;
          } else {
            // the writer waits, and its buffer is set
            m_bEmpty := true;
            copied := Some(m_pBuff.data);
            next := Signal;
          }
      }
    }

    /** The rest of read. */
    method FinishRead(at: Boundary, ghost u: UsePc, ghost g: Guard, ghost buffer: Buffer?, ghost alt: Alternative)
      returns (ran: bool, next: Boundary, copied: Option<int>)
      requires Shows(g, u.UAsleep?, buffer, alt) && at == UseAt(Some(u))
      requires at.Wait? || at.Asleep? || at.Copying? || at.Signal? || at.Unlock?
      requires u.UCopy? ==> g.ppc.PAsleep? && g.sent != [] && g.pBuff == Some(|g.sent| - 1)
      modifies this
      ensures ran <==> !u.UAsleep? && (u.UWoken? ==> g.sync == Free)
      ensures ran ==>
                && Shows(UseMove(g, u), UseNext(g, u) == Some(UAsleep), buffer, alt)
                && next == UseAt(UseNext(g, u))
                && UseMove(g, u).got == g.got + (if copied.Some? then [copied.value] else [])
      ensures !ran ==> Shows(g, u.UAsleep?, buffer, alt) && copied.None?
    {
      ran, copied := true, None;
      match at {
        case Wait =>
          m_sync := Free;
          m_cond := m_cond + {Selecting};
          next := Asleep;
        case Asleep =>
          ran, next := Selecting !in m_cond && m_sync == Free, Copying;
          if ran {
            m_sync := Selecting;
          }
        case Copying =>
          copied := Some(m_pBuff.data);
          next := Signal;
        case Signal =>
          m_cond := m_cond - {Partner};
          next := Unlock;
        case Unlock =>
          m_sync := Free;
          next := Done;
      }
    }

    method Enable(pAlt: Alternative, ghost g: Guard, ghost buffer: Buffer?) returns (r: bool)
      requires Shows(g, false, buffer, pAlt)
      modifies this`m_pAlt
      ensures Shows(EnableBody(g).0, false, buffer, pAlt) && r == EnableBody(g).1
    {
      if m_bEmpty {
        m_pAlt := pAlt;
        return false;
      } else {
        return true;
      }
    }
  }

  /** The step at a boundary of sync takes the guard g to h, as far as the fields show it, and the thread to next. */
  predicate SyncedTo(me: Owner, at: Boundary, g: Guard, h: Guard, next: Boundary) {
    && next == SyncNext(at, g)
    && h.kind == g.kind && h.pAlt == g.pAlt
    && h.sem == (if at.Sem? then g.sem - 1 else if at.Post? then g.sem + 1 else g.sem)
    && h.sync == (if at.Lock? || at.Asleep? then me else if at.Wait? || at.Unlock? then Free else g.sync)
    && h.parts == (if at.Body? then g.parts + 1 else if at.Signal? then g.parts - 2 else g.parts)
  }

  predicate InSync(at: Boundary) {
    !at.Done? && !at.Copying? && !AtSchedule(at)
  }

  lemma PartnerSyncs(g: Guard, a: AltState)
    requires g.kind.Barrier? && InSync(PartnerAt(g.ppc)) && !g.ppc.PAsleep? && (g.ppc.PSem? ==> g.sem > 0)
    ensures SyncedTo(Partner, PartnerAt(g.ppc), g, PartnerMove(g, a), PartnerAt(PartnerMove(g, a).ppc))
    ensures PartnerMove(g, a).ppc.PAsleep? <==> PartnerAt(g.ppc).Wait?
  {
  }

  lemma SelectingSyncs(g: Guard, u: UsePc)
    requires g.kind.Barrier? && InSync(UseAt(Some(u))) && !u.UAsleep? && (u.USem? ==> g.sem > 0)
    ensures SyncedTo(Selecting, UseAt(Some(u)), g, UseMove(g, u), UseAt(UseNext(g, u)))
    ensures UseMove(g, u).ppc.PAsleep? <==> g.ppc.PAsleep? && !u.USignal?
    ensures UseNext(g, u) == Some(UAsleep) <==> UseAt(Some(u)).Wait?
  {
  }

  function SyncNext(at: Boundary, g: Guard): Boundary {
    match at
    case Sem => Lock
    case Lock => Body
    case Body => if g.parts + 1 != 2 then (if g.pAlt then Sched else Wait) else Signal
    case Wait => Asleep
    case Asleep => Post
    case Signal => Post
    case Post => Unlock
    case _ => Done
  }

  class Barrier2 {
    var m_sem: nat
    var m_sync: Owner
    var m_cond: set<Owner>
    var m_parts: int
    var m_pAlt: Alternative?

    constructor (ghost alt: Alternative)
      ensures Shows(Fresh(Barrier), false, alt)
    {
      m_sem, m_sync, m_cond := 2, Free, {};
      m_parts, m_pAlt := 0, null;
    }

    /** waits: the selecting thread is in the wait set. */
    ghost predicate Shows(g: Guard, waits: bool, alt: Alternative)
      reads this
    {
      && g.kind.Barrier?
      && m_sem == g.sem && m_sync == g.sync && m_parts == g.parts
      && m_pAlt == (if g.pAlt then alt else null)
      && (Partner in m_cond <==> g.ppc.PAsleep?) && (Selecting in m_cond <==> waits)
    }

    /**
     sync up to its test of m_parts and what follows it, for the thread `me`: the partner at g.ppc,
     or the selecting thread at u.  A call of sync_sem begins at Lock.
     */
    method Sync(me: Owner, at: Boundary, ghost u: UsePc, ghost waits: bool, ghost g: Guard, ghost a: AltState,
        ghost alt: Alternative)
      returns (ran: bool, next: Boundary)
      requires Shows(g, waits, alt) && (me == Partner || me == Selecting)
               && (me == Selecting ==> (waits <==> u.UAsleep?))
      requires at == if me == Partner then PartnerAt(g.ppc) else UseAt(Some(u))
      requires at.Sem? || at.Lock? || at.Body?
      modifies this
      ensures ran <==> (at.Sem? ==> g.sem > 0) && (at.Lock? ==> g.sync == Free)
      ensures ran && me == Partner ==>
                && Shows(PartnerMove(g, a), waits && !g.ppc.PSignal?, alt)
                && next == PartnerAt(PartnerMove(g, a).ppc)
      ensures ran && me == Selecting ==>
                && Shows(UseMove(g, u), UseNext(g, u) == Some(UAsleep), alt)
                && next == UseAt(UseNext(g, u))
      ensures !ran ==> Shows(g, waits, alt)
    {
      if at.Sem? ==> m_sem > 0 {
        if me == Partner { PartnerSyncs(g, a); } else { SelectingSyncs(g, u); }
      }
      hide PartnerMove, UseMove, UseNext, PartnerAt, UseAt;
      ran := true;
      match at {
        case Sem =>
          ran, next := m_sem > 0, Lock;
          if ran {
            m_sem := m_sem - 1;
          }
        case Lock =>
          ran, next := m_sync == Free, Body;
          if ran {
            m_sync := me;
          }
        case Body =>
          m_parts := m_parts + 1;
          if m_parts != 2 {
            next := if m_pAlt != null then Sched else Wait;
          } else {
            next := Signal;
          }
      }
    }

    /** The rest of sync, except for what happens in schedule. */
    method FinishSync(me: Owner, at: Boundary, ghost u: UsePc, ghost waits: bool, ghost g: Guard, ghost a: AltState,
        ghost alt: Alternative)
      returns (ran: bool, next: Boundary)
      requires Shows(g, waits, alt) && (me == Partner || me == Selecting)
               && (me == Selecting ==> (waits <==> u.UAsleep?))
      requires at == if me == Partner then PartnerAt(g.ppc) else UseAt(Some(u))
      requires at.Wait? || at.Asleep? || at.Signal? || at.Post? || at.Unlock?
      modifies this
      ensures ran <==> (at.Asleep? ==> !(if me == Partner then g.ppc.PAsleep? else u.UAsleep?) && g.sync == Free)
      ensures ran && me == Partner ==>
                && Shows(PartnerMove(g, a), waits && !g.ppc.PSignal?, alt)
                && next == PartnerAt(PartnerMove(g, a).ppc)
      ensures ran && me == Selecting ==>
                && Shows(UseMove(g, u), UseNext(g, u) == Some(UAsleep), alt)
                && next == UseAt(UseNext(g, u))
      ensures !ran ==> Shows(g, waits, alt)
    {
      if me == Partner && !g.ppc.PAsleep? {
        PartnerSyncs(g, a);
      } else if me == Selecting && !u.UAsleep? {
        SelectingSyncs(g, u);
      }
      hide PartnerMove, UseMove, UseNext;
      ran := true;
      match at {
        case Wait =>
          m_sync := Free;
          m_cond := m_cond + {me};
          next := Asleep;
        case Asleep =>
          ran, next := me !in m_cond && m_sync == Free, Post;
          if ran {
            m_sync := me;
          }
        case Signal =>
          m_cond := m_cond - {Partner, Selecting};
          m_parts := m_parts - 2;
          next := Post;
        case Post =>
          m_sem := m_sem + 1;
          next := Unlock;
        case Unlock =>
          m_sync := Free;
          next := Done;
      }
    }

    /** enable after its sem_wait; the call of schedule inside it is never reached. */
    method Enable(pAlt: Alternative, ghost g: Guard) returns (r: bool)
      requires Shows(g, false, pAlt) && !EnableCallsSchedule(g)
      modifies this`m_pAlt
      ensures Shows(EnableBody(g).0, false, pAlt) && r == EnableBody(g).1
    {
      if m_parts == 0 {
        m_pAlt := pAlt;
        return false;
      } else {
        m_pAlt := null;
        return true;
      }
    }
  }

  /** A pointer to a guard. */
  datatype Altable = AChannel(c: One2OneChannel) | ABarrier(b: Barrier2)

  function Address(g: Altable): object {
    match g
    case AChannel(c) => c
    case ABarrier(b) => b
  }
}
