/**
 The kernel at work on its objects: select, read and sync as the selecting thread runs them, with
 the loops of select, while the partner threads run write and sync in between.  All decisions are
 made on the fields of the objects.  `turns` is the schedule: before each step of the selecting
 thread the partners take the listed steps, as far as they can, and when it is over nobody else
 moves.  The ghost state `st` is that of the step system, and `past` is the run that leads there.
 */
module Kernel {
  import opened Wrappers
  import opened Guards
  import opened Choice
  import opened ChoiceInvariant
  import opened ChoiceSteps
  import opened ChoiceTheorems
  import opened ChoiceProgress
  import opened SelectTurns
  import opened Schedule
  import opened KernelObjects
  import opened Buffers
  import opened KernelEffects

  ghost predicate GuardShows(p: Altable, g: Guard, waits: bool, buffer: Buffer?, alt: Alternative)
    reads Address(p)
  {
    match p
    case AChannel(c) => c.Shows(g, waits, buffer, alt)
    case ABarrier(b) => b.Shows(g, waits, alt)
  }

  class Threads {
    const alt: Alternative
    const guards: seq<Altable>
    var pcs: seq<Boundary>        // where the partners are
    var buffers: seq<Buffer?>     // what their last calls of write were given
    var turns: seq<seq<Label>>
    ghost const kinds: seq<Kind>
    ghost const first: AltState
    ghost var st: State
    ghost var past: seq<Label>
    ghost var origin: Config      // where the running call was when the schedule began to drive it
    ghost var steps: nat          // the steps of the selecting thread since then

    ghost function Objects(): set<object> {
      set p | p in guards :: Address(p)
    }

    lemma InObjects(i: nat)
      requires i < |guards|
      ensures Address(guards[i]) in Objects()
    {
      assert guards[i] in guards;
    }

    /** The objects are different ones. */
    ghost predicate Separate() {
      && alt !in Objects() && this !in Objects()
      && forall x, y :: 0 <= x < y < |guards| ==> Address(guards[x]) != Address(guards[y])
    }

    lemma AddressIsNumber(x: nat, y: nat)
      requires Separate() && x < |guards| && y < |guards|
      ensures Address(guards[x]) == Address(guards[y]) <==> x == y
    {
    }

    /** The fields show the state s. */
    ghost predicate Linked(s: State)
      reads this`pcs, this`buffers, alt, Objects()
    {
      && |s.g| == |guards| == |pcs| == |buffers|
      && alt.Shows(s, guards)
      && forall x :: 0 <= x < |guards| ==>
           && GuardShows(guards[x], s.g[x], InWaitSet(s, x), buffers[x], alt)
           && pcs[x] == PartnerAt(s.g[x].ppc)
    }

    ghost predicate Valid()
      reads this`pcs, this`buffers, this`st, this`past, alt, Objects()
    {
      Separate() && Linked(st) && Run(Init(kinds, first), past) == Some(st) && Inv(st)
    }

    ghost function Here(): Config
      reads this`st, this`turns, this`past
    {
      Config(st, turns, past)
    }

    /** Threads have moved since the origin as the schedule says. */
    ghost predicate OnSchedule()
      reads this`st, this`turns, this`past, this`origin, this`steps
    {
      Here() == Drive(origin, steps)
    }

    /** The same, and the partners have taken their turns up to the next step of the selecting thread. */
    ghost predicate Waited()
      reads this`st, this`turns, this`past, this`origin, this`steps
    {
      Here() == Awaited(Drive(origin, steps))
    }

    /** The guards show the state s, leaving guard i aside. */
    ghost predicate LinkedBut(i: nat, s: State)
      reads this`pcs, this`buffers, Objects()
    {
      && |s.g| == |guards| == |pcs| == |buffers|
      && forall x :: 0 <= x < |guards| && x != i ==>
           && GuardShows(guards[x], s.g[x], InWaitSet(s, x), buffers[x], alt)
           && pcs[x] == PartnerAt(s.g[x].ppc)
    }

    /** What is shown away from guard i is the same for a state that differs there only. */
    lemma Relink(i: nat, s: State, t: State)
      requires LinkedBut(i, s) && alt.Shows(t, guards) && |t.g| == |s.g|
      requires forall y :: 0 <= y < |guards| && y != i ==> t.g[y] == s.g[y] && (InWaitSet(t, y) <==> InWaitSet(s, y))
      requires i < |guards| ==>
                 && GuardShows(guards[i], t.g[i], InWaitSet(t, i), buffers[i], alt)
                 && pcs[i] == PartnerAt(t.g[i].ppc)
      ensures Linked(t)
    {
      hide One2OneChannel.Shows, Barrier2.Shows, Alternative.Shows;
    }

    lemma AltStays(s: State, t: State)
      requires alt.Shows(s, guards) && SameAlt(s, t)
      ensures alt.Shows(t, guards)
    {
    }

    /** New objects, of the kinds given; m_state is what the memory of the alternative happens to hold. */
    constructor (alt: Alternative, guards: seq<Altable>, turns: seq<seq<Label>>, ghost kinds: seq<Kind>)
      requires alt.m_sync == AltFree && !alt.m_cond && |kinds| == |guards|
      requires forall x, y :: 0 <= x < y < |guards| ==> Address(guards[x]) != Address(guards[y])
      requires forall x :: 0 <= x < |guards| ==> GuardShows(guards[x], Fresh(kinds[x]), false, null, alt)
      ensures Valid() && this.alt == alt && this.guards == guards
      ensures st == Init(kinds, alt.m_state) && past == [] && this.turns == turns
    {
      hide Inv, Run, Linked;
      this.alt, this.guards, this.turns := alt, guards, turns;
      pcs := seq(|guards|, _ => Done);
      buffers := seq(|guards|, _ => null);
      this.kinds := kinds;
      first := alt.m_state;
      st := Init(kinds, alt.m_state);
      past := [];
      new;
      StartsLinked();
    }

    /** The initial fields show the initial state. */
    lemma StartsLinked()
      requires alt.m_sync == AltFree && !alt.m_cond && |kinds| == |guards| == |pcs| == |buffers| && alt.m_state == first
      requires forall x :: 0 <= x < |guards| ==>
                 GuardShows(guards[x], Fresh(kinds[x]), false, null, alt) && pcs[x] == Done && buffers[x] == null
      ensures Linked(Init(kinds, first)) && Inv(Init(kinds, first))
      ensures Run(Init(kinds, first), []) == Some(Init(kinds, first))
    {
      hide Inv, GuardShows;
      InitOk(kinds, first);
    }

    /** One step of the step system has been taken on the fields. */
    ghost method Tick(l: Label)
      requires Separate() && Run(Init(kinds, first), past) == Some(st) && Inv(st)
      requires Next(st, l).Some? && Linked(Next(st, l).value)
      modifies this`st, this`past
      ensures Valid() && Next(old(st), l) == Some(st) && past == old(past) + [l]
    {
      hide Next, Inv, GuardShows;
      NextKeeps(st, l);
      RunSnoc(Init(kinds, first), past, l);
      past := past + [l];
      st := Next(st, l).value;
    }

    // ---------- The partners ----------

    method ScheduleTurn(i: nat) returns (ran: bool)
      requires Separate() && Linked(st) && i < |guards| && AtSchedule(pcs[i])
      modifies this`pcs, alt
      ensures ran <==> PartnerCan(st, i)
      ensures Linked(if ran then PartnerStep(st, i).value else st)
    {
      hide PartnerStep, PartnerMove, UseMove, UseNext, Alternative.Shows;
      assert !st.g[i].ppc.PAsleep? && !st.g[i].ppc.PIdle?;
      var next;
      ran, next := alt.Schedule(pcs[i], i, st, guards);
      if ran {
        pcs := pcs[i := next];
        PartnerEffect(st, i);
        ScheduleEffect(st, i);
        ScheduleShows(i, st.g[i], PartnerMove(st.g[i], st.astate).ppc, InWaitSet(st, i));
        assert LinkedBut(i, st);
        hide Linked, LinkedBut, Separate, GuardShows;
        Relink(i, st, PartnerStep(st, i).value);
      }
    }

    /** The fields of a guard do not show where its partner is in schedule. */
    lemma ScheduleShows(i: nat, g: Guard, p: PartnerPc, waits: bool)
      requires i < |guards| && i < |buffers| && GuardShows(guards[i], g, waits, buffers[i], alt)
      requires AtSchedule(PartnerAt(g.ppc)) && !p.PAsleep?
      ensures GuardShows(guards[i], g.(ppc := p), waits, buffers[i], alt)
    {
    }

    /** The partner of guard i has moved on the fields of its guard. */
    lemma Moved(i: nat)
      requires i < |guards| && i < |st.g| && PartnerCan(st, i) && !AtSchedule(PartnerAt(st.g[i].ppc))
      requires LinkedBut(i, st) && alt.Shows(st, guards)
      requires var h := PartnerMove(st.g[i], st.astate);
               && GuardShows(guards[i], h, InWaitSet(st, i) && !st.g[i].ppc.PSignal?, buffers[i], alt)
               && pcs[i] == PartnerAt(h.ppc)
      ensures PartnerStep(st, i).Some? && Linked(PartnerStep(st, i).value)
    {
      PartnerEffect(st, i);
      hide PartnerStep, PartnerMove, PartnerCan, Linked, LinkedBut, Alternative.Shows, GuardShows;
      AltStays(st, PartnerStep(st, i).value);
      Relink(i, st, PartnerStep(st, i).value);
    }

    method ChannelTurn(i: nat, c: One2OneChannel) returns (ran: bool)
      requires Separate() && Linked(st) && i < |guards| && guards[i] == AChannel(c)
      requires !AtSchedule(pcs[i]) && !pcs[i].Done? && !pcs[i].Sem? && !pcs[i].Post? && st.g[i].sent != []
      modifies this`pcs, c
      ensures ran <==> PartnerCan(st, i)
      ensures Linked(if ran then PartnerStep(st, i).value else st)
    {
      hide PartnerStep, PartnerMove, UseMove, UseNext, One2OneChannel.Shows, Barrier2.Shows;
      var next;
      if pcs[i].Lock? || pcs[i].Body? {
        ran, next := c.Write(pcs[i], buffers[i], st.g[i], InWaitSet(st, i), st.astate, alt);
      } else {
        ran, next := c.FinishWrite(pcs[i], st.g[i], InWaitSet(st, i), buffers[i], st.astate, alt);
      }
      if ran {
        pcs := pcs[i := next];
        Moved(i);
      }
    }

    method BarrierTurn(i: nat, b: Barrier2) returns (ran: bool)
      requires Separate() && Linked(st) && i < |guards| && guards[i] == ABarrier(b)
      requires !AtSchedule(pcs[i]) && !pcs[i].Done?
      modifies this`pcs, b
      ensures ran <==> PartnerCan(st, i)
      ensures Linked(if ran then PartnerStep(st, i).value else st)
    {
      hide PartnerStep, PartnerMove, UseMove, UseNext, One2OneChannel.Shows, Barrier2.Shows;
      var next;
      if pcs[i].Sem? || pcs[i].Lock? || pcs[i].Body? {
        ran, next := b.Sync(Partner, pcs[i], USem, InWaitSet(st, i), st.g[i], st.astate, alt);
      } else {
        ran, next := b.FinishSync(Partner, pcs[i], USem, InWaitSet(st, i), st.g[i], st.astate, alt);
      }
      if ran {
        pcs := pcs[i := next];
        Moved(i);
      }
    }

    /** The step l of a partner has been taken since s, if it was possible then. */
    ghost predicate Took(s: State, before: seq<Label>, l: Label)
      reads this`st, this`past
    {
      if Possible(s, l) then Next(s, l) == Some(st) && past == before + [l] else st == s && past == before
    }

    /** The partner of guard i, inside its call, runs on to its next boundary, if it can. */
    method Resume(i: nat) returns (ran: bool)
      requires Separate() && Linked(st) && i < |guards| && !pcs[i].Done?
      requires st.g[i].kind.Channel? ==> st.g[i].sent != [] && !pcs[i].Sem? && !pcs[i].Post?
      modifies this`pcs, alt, Address(guards[i])
      ensures ran <==> PartnerCan(st, i)
      ensures Linked(if ran then PartnerStep(st, i).value else st)
    {
      KindOfGuard(i);
      hide Linked, Separate, PartnerStep, PartnerCan;
      if AtSchedule(pcs[i]) {
        ran := ScheduleTurn(i);
      } else {
        match guards[i]
        case AChannel(c) => ran := ChannelTurn(i, c);
        case ABarrier(b) => ran := BarrierTurn(i, b);
      }
    }

    lemma PartnerFacts(i: nat)
      requires Valid() && i < |guards|
      ensures i < |st.g| == |pcs| && pcs[i] == PartnerAt(st.g[i].ppc) && Linked(st) && Separate()
      ensures !pcs[i].Done? && st.g[i].kind.Channel? ==> st.g[i].sent != [] && !pcs[i].Sem? && !pcs[i].Post?
    {
      if !st.g[i].ppc.PIdle? { PartnerKind(st, i); }
      InObjects(i);
      hide Inv, Run, Separate, GuardShows;
    }

    method PartnerTurn(i: nat)
      requires Valid() && i < |guards|
      modifies this`pcs, this`st, this`past, alt, Objects()
      ensures Valid() && Undisturbed(old(st), st) && Continues(old(past), past)
      ensures Took(old(st), old(past), Step(i))
    {
      hide Inv, Run, Linked, Separate, PartnerStep, PartnerCan, Undisturbed;
      PartnerFacts(i);
      PossibleStep(st, i);
      if !pcs[i].Done? {
        InObjects(i);
        var ran := Resume(i);
        if ran {
          PartnerCanStep(st, i);
          OthersDoNotDisturb(st, Step(i));
          Tick(Step(i));
        } else {
          SameIsUndisturbed(st);
        }
      } else {
        SameIsUndisturbed(st);
      }
    }

    /** The fields of a call of write with a buffer that holds v, or of sync. */
    method Arrive(i: nat, v: int)
      requires Linked(st) && i < |guards| && pcs[i].Done?
      modifies this`pcs, this`buffers
      ensures PartnerCall(st, i, v).Some? && Linked(PartnerCall(st, i, v).value)
    {
      ghost var was := buffers[i];
      if guards[i].AChannel? {
        var buffer := new Buffer(v);
        buffers := buffers[i := buffer];
        pcs := pcs[i := Lock];
      } else {
        pcs := pcs[i := Sem];
      }
      CallShows(i, v, was);
      hide PartnerCall, GuardShows, Linked;
      Relink(i, st, PartnerCall(st, i, v).value);
    }

    /** What a new call changes at its own guard. */
    lemma CallShows(i: nat, v: int, was: Buffer?)
      requires i < |guards| == |st.g| == |pcs| == |buffers| && st.g[i].ppc.PIdle? && alt.Shows(st, guards)
      requires guards[i].AChannel? ==> buffers[i] != null && buffers[i].data == v && pcs[i] == Lock
      requires guards[i].ABarrier? ==> pcs[i] == Sem
      requires GuardShows(guards[i], st.g[i], InWaitSet(st, i), was, alt)
      ensures PartnerCall(st, i, v).Some?
      ensures var t := PartnerCall(st, i, v).value;
              && GuardShows(guards[i], t.g[i], InWaitSet(t, i), buffers[i], alt) && pcs[i] == PartnerAt(t.g[i].ppc)
              && alt.Shows(t, guards) && |t.g| == |st.g| && (forall y: nat :: InWaitSet(t, y) <==> InWaitSet(st, y))
              && forall y :: 0 <= y < |st.g| && y != i ==> t.g[y] == st.g[y]
    {
    }

    /** The partner of guard i calls write or sync, unless it is inside a call. */
    method PartnerArrives(i: nat, v: int)
      requires Valid() && i < |guards|
      modifies this`pcs, this`buffers, this`st, this`past
      ensures Valid() && Undisturbed(old(st), st) && Continues(old(past), past)
      ensures Took(old(st), old(past), CallPartner(i, v))
    {
      hide Inv, Run, Separate, PartnerCall;
      PossibleCall(st, i, v);
      if pcs[i].Done? {
        hide Linked;
        Arrive(i, v);
        OthersDoNotDisturb(st, CallPartner(i, v));
        Tick(CallPartner(i, v));
      }
    }

    /** The partners take the steps of one turn, each if it is possible when it comes. */
    method Others(ls: seq<Label>)
      requires Valid()
      modifies this`pcs, this`buffers, this`st, this`past, alt, Objects()
      ensures Valid() && Undisturbed(old(st), st) && Continues(old(past), past)
      ensures st == Taken(old(st), ls).0 && past == old(past) + Taken(old(st), ls).1
    {
      hide Inv, Run, Linked, Separate, Next;
      for n := 0 to |ls|
        invariant Valid() && Undisturbed(old(st), st) && Continues(old(past), past)
        invariant st == Taken(old(st), ls[..n]).0 && past == old(past) + Taken(old(st), ls[..n]).1
      {
        ghost var s := st;
        GuardsOfState();
        assert ls[..n + 1][..n] == ls[..n];
        match ls[n] {
          case Step(i) => if i < |guards| { PartnerTurn(i); } else { NoSuchPartner(st, ls[n]); }
          case CallPartner(i, v) => if i < |guards| { PartnerArrives(i, v); } else { NoSuchPartner(st, ls[n]); }
          case _ =>
        }
        UndisturbedTwice(old(st), s, st);
      }
      assert ls[..|ls|] == ls;
    }

    // ---------- The selecting thread ----------

    /** What the selecting thread waits for is there, by the fields. */
    method IsMet(w: Need) returns (met: bool)
      requires Valid() && w == NeedOf(st) && !st.spc.SIdle?
      ensures met <==> SelectStep(st).Some?
    {
      NeedInRange(st);
      CanMoveIff(st);
      hide Inv, Run, SelectStep, NeedOf, Separate;
      match w
      case Nothing => met := true;
      case AltLock => met := alt.m_sync == AltFree;
      case AltSignal => met := !alt.m_cond && alt.m_sync == AltFree;
      case Permit(x) =>
        match guards[x] {
          case AChannel(_) => met := false;
          case ABarrier(b) => met := b.m_sem > 0;
        }
      case GuardLock(x) =>
        match guards[x] {
          case AChannel(c) => met := c.m_sync == Free;
          case ABarrier(b) => met := b.m_sync == Free;
        }
      case GuardSignal(x) =>
        match guards[x] {
          case AChannel(c) => met := Selecting !in c.m_cond && c.m_sync == Free;
          case ABarrier(b) => met := Selecting !in b.m_cond && b.m_sync == Free;
        }
    }

    /**
     Others take their turns until what the selecting thread waits for is there; false if it is not
     when the schedule has ended.
     */
    method Turn(w: Need) returns (ok: bool)
      requires Valid() && OnSchedule() && w == NeedOf(st) && !st.spc.SIdle?
      modifies this, alt, Objects()
      ensures Valid() && origin == old(origin) && (if ok then Waited() else OnSchedule())
      ensures Undisturbed(old(st), st) && Continues(old(past), past)
      ensures st.gs == old(st).gs && st.selected == old(st).selected && |st.g| == |guards|
      ensures !old(st).spc.SAsleep? && !old(st).spc.SUse? ==> st.spc == old(st).spc
      ensures ok ==> SelectStep(st).Some?
      ensures !ok ==> turns == [] && Blocked(st)
    {
      hide Inv, Run, Linked, Separate, SelectStep, NeedOf, Taken, Drive;
      ghost var start := Here();
      while turns != []
        invariant Valid() && Undisturbed(old(st), st) && Continues(old(past), past) && w == NeedOf(st)
        invariant origin == old(origin) && steps == old(steps) && Awaited(Here()) == Awaited(start)
        decreases |turns|
      {
        ghost var s := Here();
        var ls := turns[0];
        turns := turns[1..];
        Others(ls);
        assert Here() == AfterTurn(s);
        NeedStays(s.st, st);
        UndisturbedTwice(old(st), s.st, st);
        ok := IsMet(w);
        if ok {
          GuardsOfState();
          return;
        }
      }
      ok := IsMet(w);
      GuardsOfState();
      if !ok { Ended(); }
    }

    /** The schedule has ended and the selecting thread cannot move: it stays where it is. */
    ghost method Ended()
      requires Here() == Awaited(Drive(origin, steps)) && SelectStep(st).None?
      modifies this`steps
      ensures OnSchedule() && steps == old(steps) + 1
    {
      steps := steps + 1;
    }

    /** A step of the selecting thread has been taken on the fields, after the partners' turns. */
    ghost method TickSelect()
      requires Separate() && Run(Init(kinds, first), past) == Some(st) && Inv(st) && Waited()
      requires SelectStep(st).Some? && Linked(SelectStep(st).value)
      modifies this`st, this`past, this`steps
      ensures Valid() && OnSchedule() && origin == old(origin)
      ensures SelectStep(old(st)) == Some(st) && past == old(past) + [Label.Select]
    {
      hide Inv, Awaited, GuardShows;
      assert Next(st, Label.Select) == SelectStep(st);
      hide Next, SelectStep;
      Tick(Label.Select);
      steps := steps + 1;
    }

    /** The selecting thread has taken a step of select, which may have changed guard i. */
    ghost method Tock(i: nat, s: State)
      requires Separate() && Run(Init(kinds, first), past) == Some(st) && Inv(st) && SelectStep(st).Some?
      requires Undisturbed(s, st) && Inv(s) && !s.spc.SUse? && !s.spc.SIdle?
      requires LinkedBut(i, st) && alt.Shows(SelectStep(st).value, guards)
      requires var t := SelectStep(st).value;
               && |t.g| == |st.g| && (forall y :: 0 <= y < |guards| && y != i ==> t.g[y] == st.g[y])
               && (i < |guards| ==>
                     GuardShows(guards[i], t.g[i], false, buffers[i], alt) && pcs[i] == PartnerAt(t.g[i].ppc))
      requires Waited()
      modifies this`st, this`past, this`steps
      ensures Valid() && OnSchedule() && origin == old(origin)
      ensures SelectStep(old(st)) == Some(st) && past == old(past) + [Label.Select] && Advanced(s, st)
    {
      SelectAdvances(s, st, SelectStep(st).value);
      NoWaitInSelect(s, st);
      hide Inv, Run, OnSchedule, Waited, Advanced, Undisturbed, Separate, LinkedBut, SelectStep, GuardShows, Linked;
      Relink(i, st, SelectStep(st).value);
      TickSelect();
    }

    /** The schedule has ended, and the selecting thread is blocked inside select. */
    ghost predicate GivenUp(gs: seq<nat>)
      reads this`turns, this`st
    {
      turns == [] && Blocked(st) && st.gs == gs && !st.spc.SUse?
    }

    /** m_state = eEnabling. */
    method Start() returns (ok: bool)
      requires Valid() && OnSchedule() && st.spc.SStart?
      modifies this, alt, Objects()
      ensures Valid() && OnSchedule() && origin == old(origin) && Continues(old(past), past)
      ensures !ok ==> GivenUp(old(st.gs))
      ensures ok ==> Advanced(old(st), st)
    {
      hide Inv, Run, OnSchedule, Waited, Advanced, Undisturbed, Separate, GuardShows, Blocked;
      ok := Turn(Nothing);
      if ok {
        alt.m_state := Enabling;
        Tock(|guards|, old(st));
      }
    }

    /** Lock the alternative, or wake up from its condition with the lock. */
    method LockAlt(w: Need) returns (ok: bool)
      requires Valid() && OnSchedule() && (w == AltLock || w == AltSignal) && NeedOf(st) == w
      modifies this, alt, Objects()
      ensures Valid() && OnSchedule() && origin == old(origin) && Continues(old(past), past)
      ensures !ok ==> GivenUp(old(st.gs))
      ensures ok ==> Advanced(old(st), st)
    {
      hide Inv, Run, OnSchedule, Waited, Advanced, Separate, GuardShows, Blocked, SelectStep, NeedOf, Undisturbed;
      AltNeed(st);
      ok := Turn(w);
      NeedStays(old(st), st);
      AltNeed(st);
      if ok {
        LockEffect(st);
        alt.m_sync := BySelecting;
        Tock(|guards|, old(st));
      }
    }

    method UnlockAlt() returns (ok: bool)
      requires Valid() && OnSchedule() && (st.spc.SUnlock? || st.spc.SWUnlock?)
      modifies this, alt, Objects()
      ensures Valid() && OnSchedule() && origin == old(origin) && Continues(old(past), past)
      ensures !ok ==> GivenUp(old(st.gs))
      ensures ok ==> Advanced(old(st), st)
    {
      hide Inv, Run, OnSchedule, Waited, Advanced, Undisturbed, Separate, GuardShows, Blocked;
      ok := Turn(Nothing);
      if ok {
        alt.m_sync := AltFree;
        Tock(|guards|, old(st));
      }
    }

    /** The test of m_state in the enabling loop. */
    method TestReady() returns (ok: bool, ready: bool)
      requires Valid() && OnSchedule() && st.spc.SBody?
      modifies this, alt, Objects()
      ensures Valid() && OnSchedule() && origin == old(origin) && Continues(old(past), past)
      ensures !ok ==> GivenUp(old(st.gs))
      ensures ok ==> Advanced(old(st), st)
      ensures ok ==> (ready <==> st.spc.SUnlock?)
    {
      hide Inv, Run, OnSchedule, Waited, Advanced, Undisturbed, Separate, GuardShows, Blocked;
      ready := false;
      ok := Turn(Nothing);
      if ok {
        ready := alt.m_state == Ready;
        Tock(|guards|, old(st));
      }
    }

    /** A step that reads and writes local variables only. */
    method Local() returns (ok: bool)
      requires Valid() && OnSchedule() && (st.spc.SFix? || (st.spc.STop? && st.spc.k >= |st.gs|)
               || (st.spc.SDis? && st.spc.i > st.spc.b))
      modifies this, alt, Objects()
      ensures Valid() && OnSchedule() && origin == old(origin) && Continues(old(past), past)
      ensures !ok ==> GivenUp(old(st.gs))
      ensures ok ==> Advanced(old(st), st)
    {
      hide Inv, Run, OnSchedule, Waited, Advanced, Undisturbed, Separate, GuardShows, Blocked;
      ok := Turn(Nothing);
      if ok {
        Tock(|guards|, old(st));
      }
    }

    /** Unless a guard is ready, m_state = eWaiting and wait. */
    method WaitUnlessReady() returns (ok: bool, wait: bool)
      requires Valid() && OnSchedule() && st.spc.SWBody?
      modifies this, alt, Objects()
      ensures Valid() && OnSchedule() && origin == old(origin) && Continues(old(past), past)
      ensures !ok ==> GivenUp(old(st.gs))
      ensures ok ==> Advanced(old(st), st)
      ensures ok ==> (wait <==> st.spc.SAsleep?)
    {
      hide Inv, Run, OnSchedule, Waited, Advanced, Undisturbed, Separate, GuardShows, Blocked;
      wait := false;
      ok := Turn(Nothing);
      if ok {
        wait := alt.m_state == Enabling;
        if wait {
          alt.m_state := Waiting;
          alt.m_cond := true;
          alt.m_sync := AltFree;
        }
        Tock(|guards|, old(st));
      }
    }

    /** The comparison of m_selector with the address of a guard. */
    method IsSelector(x: nat) returns (ok: bool, care: bool)
      requires Valid() && OnSchedule() && st.spc.SDis? && st.spc.i <= st.spc.b && AtPosition(st.spc.i, x)
      modifies this, alt, Objects()
      ensures Valid() && OnSchedule() && origin == old(origin) && Continues(old(past), past)
      ensures !ok ==> GivenUp(old(st.gs))
      ensures ok ==> Advanced(old(st), st)
      ensures ok ==> st.spc.SDisLock? && st.spc.care == care
    {
      hide Inv, Run, OnSchedule, Waited, Advanced, Undisturbed, Separate, GuardShows, Blocked, SelectStep;
      care := false;
      ok := Turn(Nothing);
      if ok {
        SelectorIsSet(st);
        CompareEffect(st);
        AddressIsNumber(st.selector.value, x);
        care := alt.m_selector == Address(guards[x]);
        Tock(|guards|, old(st));
      }
    }

    /** m_state = eInactive. */
    method Finish() returns (ok: bool)
      requires Valid() && OnSchedule() && st.spc.SEnd?
      modifies this, alt, Objects()
      ensures Valid() && OnSchedule() && origin == old(origin) && Continues(old(past), past)
      ensures !ok ==> GivenUp(old(st.gs))
      ensures ok ==> Advanced(old(st), st)
    {
      hide Inv, Run, OnSchedule, Waited, Advanced, Undisturbed, Separate, GuardShows, Blocked;
      ok := Turn(Nothing);
      if ok {
        alt.m_state := Inactive;
        Tock(|guards|, old(st));
      }
    }

    /** st is at guard x, which is the one at the position k of the list. */
    ghost predicate AtPosition(k: int, x: nat)
      reads this`st
    {
      0 <= k < |st.gs| && x == st.gs[k] && x < |guards|
    }

    /** Lock or unlock guard x. */
    method SetLock(x: nat, owner: Owner, ghost s: State)
      requires Separate() && Linked(s) && x < |guards| && !InWaitSet(s, x)
      modifies Address(guards[x])
      ensures LinkedBut(x, s) && alt.Shows(s, guards) && pcs[x] == PartnerAt(s.g[x].ppc)
      ensures GuardShows(guards[x], s.g[x].(sync := owner), false, buffers[x], alt)
    {
      match guards[x] {
        case AChannel(c) => c.m_sync := owner;
        case ABarrier(b) => b.m_sync := owner;
      }
    }

    /** sem_wait, when there is a permit, or sem_post. */
    method AddPermit(x: nat, d: int, ghost s: State)
      requires Separate() && Linked(s) && x < |guards| && !InWaitSet(s, x) && guards[x].ABarrier? && s.g[x].sem + d >= 0
      modifies Address(guards[x])
      ensures LinkedBut(x, s) && alt.Shows(s, guards) && pcs[x] == PartnerAt(s.g[x].ppc)
      ensures GuardShows(guards[x], s.g[x].(sem := s.g[x].sem + d), false, buffers[x], alt)
    {
      var b := guards[x].b;
      b.m_sem := b.m_sem + d;
    }

    /** The body of enable on guard x. */
    method Enable(x: nat, ghost s: State) returns (r: bool)
      requires Separate() && Linked(s) && x < |guards| && !InWaitSet(s, x) && !EnableCallsSchedule(s.g[x])
      modifies Address(guards[x])
      ensures LinkedBut(x, s) && alt.Shows(s, guards) && pcs[x] == PartnerAt(s.g[x].ppc)
      ensures GuardShows(guards[x], EnableBody(s.g[x]).0.(enrolled := true), false, buffers[x], alt)
      ensures r == EnableBody(s.g[x]).1
    {
      match guards[x] {
        case AChannel(c) => r := c.Enable(alt, s.g[x], buffers[x]);
        case ABarrier(b) => r := b.Enable(alt, s.g[x]);
      }
    }

    /** m_pAlt = NULL. */
    method Disable(x: nat, ghost s: State)
      requires Separate() && Linked(s) && x < |guards| && !InWaitSet(s, x)
      modifies Address(guards[x])
      ensures LinkedBut(x, s) && alt.Shows(s, guards) && pcs[x] == PartnerAt(s.g[x].ppc)
      ensures GuardShows(guards[x], DisableBody(s.g[x]).(enrolled := false), false, buffers[x], alt)
    {
      match guards[x] {
        case AChannel(c) => c.m_pAlt := null;
        case ABarrier(b) => b.m_pAlt := null;
      }
    }

    /** sem_wait in enable. */
    method SemWait(x: nat) returns (ok: bool)
      requires Valid() && OnSchedule() && st.spc.SEnSem? && AtPosition(st.spc.k, x) && guards[x].ABarrier?
      modifies this, alt, Objects()
      ensures Valid() && OnSchedule() && origin == old(origin) && Continues(old(past), past)
      ensures !ok ==> GivenUp(old(st.gs))
      ensures ok ==> Advanced(old(st), st)
    {
      hide Inv, Run, OnSchedule, Waited, Advanced, Undisturbed, Blocked, GuardShows, LinkedBut;
      ok := Turn(Permit(x));
      if ok {
        AddPermit(x, -1, st);
        Tock(x, old(st));
      }
    }

    /** Lock guard x, in enable or disable. */
    method LockGuard(x: nat) returns (ok: bool)
      requires Valid() && OnSchedule() && ((st.spc.SEnLock? && AtPosition(st.spc.k, x))
               || (st.spc.SDisLock? && AtPosition(st.spc.i, x)))
      modifies this, alt, Objects()
      ensures Valid() && OnSchedule() && origin == old(origin) && Continues(old(past), past)
      ensures !ok ==> GivenUp(old(st.gs))
      ensures ok ==> Advanced(old(st), st)
    {
      hide Inv, Run, OnSchedule, Waited, Advanced, Undisturbed, Blocked, GuardShows, LinkedBut, EnableBody;
      ok := Turn(GuardLock(x));
      if ok {
        SetLock(x, Selecting, st);
        Tock(x, old(st));
      }
    }

    /** enable on guard x, with its lock, up to the unlock. */
    method EnableGuard(x: nat) returns (ok: bool, r: bool)
      requires Valid() && OnSchedule() && st.spc.SEnBody? && AtPosition(st.spc.k, x)
      modifies this, alt, Objects()
      ensures Valid() && OnSchedule() && origin == old(origin) && Continues(old(past), past)
      ensures !ok ==> GivenUp(old(st.gs))
      ensures ok ==> Advanced(old(st), st)
      ensures ok ==> st.spc.SEnUnlock? && st.spc.r == r
    {
      hide Inv, Run, OnSchedule, Waited, SelectStep, Advanced, Undisturbed, Blocked, GuardShows, LinkedBut, NeedOf;
      hide EnableBody, EnableCallsSchedule;
      BodyNeed(st);
      r := false;
      ok := Turn(Nothing);
      if ok {
        EnablesBody(st);
        EnableEffect(st);
        r := Enable(x, st);
        Tock(x, old(st));
      }
    }

    /** The unlock at the end of enable, and what select assigns if it returned true. */
    method UnlockEnabled(x: nat, r: bool) returns (ok: bool)
      requires Valid() && OnSchedule() && st.spc.SEnUnlock? && st.spc.r == r && AtPosition(st.spc.k, x)
      modifies this, alt, Objects()
      ensures Valid() && OnSchedule() && origin == old(origin) && Continues(old(past), past)
      ensures !ok ==> GivenUp(old(st.gs))
      ensures ok ==> Advanced(old(st), st)
    {
      hide Inv, Run, OnSchedule, Waited, Advanced, Undisturbed, Blocked, GuardShows, LinkedBut, EnableBody;
      ok := Turn(Nothing);
      if ok {
        SetLock(x, Free, st);
        if r {
          alt.m_selector := Address(guards[x]);
          alt.m_state := Ready;
        }
        Tock(x, old(st));
      }
    }

    /** disable on guard x, with its lock: m_pAlt = NULL. */
    method ClearAlt(x: nat) returns (ok: bool)
      requires Valid() && OnSchedule() && st.spc.SDisBody? && AtPosition(st.spc.i, x)
      modifies this, alt, Objects()
      ensures Valid() && OnSchedule() && origin == old(origin) && Continues(old(past), past)
      ensures !ok ==> GivenUp(old(st.gs))
      ensures ok ==> Advanced(old(st), st)
    {
      hide Inv, Run, OnSchedule, Waited, Advanced, Undisturbed, Blocked, GuardShows, LinkedBut, EnableBody;
      ok := Turn(Nothing);
      if ok {
        Disable(x, st);
        Tock(x, old(st));
      }
    }

    /** sem_post in disable. */
    method SemPost(x: nat) returns (ok: bool)
      requires Valid() && OnSchedule() && st.spc.SDisPost? && AtPosition(st.spc.i, x) && guards[x].ABarrier?
      modifies this, alt, Objects()
      ensures Valid() && OnSchedule() && origin == old(origin) && Continues(old(past), past)
      ensures !ok ==> GivenUp(old(st.gs))
      ensures ok ==> Advanced(old(st), st)
    {
      hide Inv, Run, OnSchedule, Waited, Advanced, Undisturbed, Blocked, GuardShows, LinkedBut, SelectStep;
      ok := Turn(Nothing);
      if ok {
        PostEffect(st);
        AddPermit(x, 1, st);
        Tock(x, old(st));
      }
    }

    /** The unlock at the end of disable. */
    method UnlockDisabled(x: nat) returns (ok: bool)
      requires Valid() && OnSchedule() && st.spc.SDisUnlock? && AtPosition(st.spc.i, x)
      modifies this, alt, Objects()
      ensures Valid() && OnSchedule() && origin == old(origin) && Continues(old(past), past)
      ensures !ok ==> GivenUp(old(st.gs))
      ensures ok ==> Advanced(old(st), st)
    {
      hide Inv, Run, OnSchedule, Waited, Advanced, Undisturbed, Blocked, GuardShows, LinkedBut, EnableBody;
      ok := Turn(Nothing);
      if ok {
        SetLock(x, Free, st);
        Tock(x, old(st));
      }
    }

    // ---------- select ----------

    lemma KindOfGuard(x: nat)
      requires Linked(st) && x < |guards|
      ensures x < |st.g| && (guards[x].ABarrier? <==> st.g[x].kind.Barrier?)
    {
    }

    ghost predicate InList(m_c: seq<nat>) {
      forall k :: 0 <= k < |m_c| ==> m_c[k] < |guards|
    }

    /** enable on the guard at position k, with the alternative locked. */
    method EnableAt(m_c: seq<nat>, k: nat) returns (ok: bool, ready: bool)
      requires Valid() && OnSchedule() && InList(m_c) && st.gs == m_c && k < |m_c|
      requires st.spc == if guards[m_c[k]].ABarrier? then SEnSem(k) else SEnLock(k)
      modifies this, alt, Objects()
      ensures Valid() && OnSchedule() && origin == old(origin) && Continues(old(past), past)
      ensures !ok ==> GivenUp(m_c)
      ensures ok ==> st.spc == SUnlock(k, ready) && st.gs == m_c
    {
      hide Inv, Run, OnSchedule, Blocked, Separate, Linked;
      ready := false;
      var x := m_c[k];
      if guards[x].ABarrier? {
        ok := SemWait(x);
        if !ok { return; }
      }
      ok := LockGuard(x);
      if !ok { return; }
      ok, ready := EnableGuard(x);
      if !ok { return; }
      ok := UnlockEnabled(x, ready);
    }

    /** disable on the guard at position i, up to its sem_post or its unlock. */
    method Unregister(m_c: seq<nat>, ghost b: int, i: nat, ghost care: bool) returns (ok: bool)
      requires Valid() && OnSchedule() && InList(m_c) && st.gs == m_c && i < |m_c| && st.spc == SDisLock(b, i, care)
      modifies this, alt, Objects()
      ensures Valid() && OnSchedule() && origin == old(origin) && Continues(old(past), past)
      ensures !ok ==> GivenUp(m_c)
      ensures ok ==>
                && st.gs == m_c && st.selected == old(st).selected
                && st.spc == if guards[m_c[i]].ABarrier? && !care then SDisPost(b, i) else SDisUnlock(b, i, care)
    {
      hide Inv, Run, OnSchedule, Blocked, Separate, Linked;
      ok := LockGuard(m_c[i]);
      if !ok { return; }
      KindOfGuardNow(m_c[i]);
      ok := ClearAlt(m_c[i]);
    }

    /** disable on the guard at position i. */
    method DisableAt(m_c: seq<nat>, ghost b: int, i: nat, care: bool) returns (ok: bool)
      requires Valid() && OnSchedule() && InList(m_c) && st.gs == m_c && i < |m_c| && st.spc == SDisLock(b, i, care)
      modifies this, alt, Objects()
      ensures Valid() && OnSchedule() && origin == old(origin) && Continues(old(past), past)
      ensures !ok ==> GivenUp(m_c)
      ensures ok ==> st.spc == SDis(b, i + 1) && st.gs == m_c && st.selected == old(st.selected)
    {
      hide Inv, Run, OnSchedule, Blocked, Separate, Linked;
      ok := Unregister(m_c, b, i, care);
      if !ok { return; }
      if guards[m_c[i]].ABarrier? && !care {
        ok := SemPost(m_c[i]);
        if !ok { return; }
      }
      ok := UnlockDisabled(m_c[i]);
    }

    lemma KindOfGuardNow(x: nat)
      requires Valid() && x < |guards|
      ensures x < |st.g| && (guards[x].ABarrier? <==> st.g[x].kind.Barrier?)
    {
      hide Inv, Run, Separate;
      KindOfGuard(x);
    }

    /** The body of the enabling loop: it leaves the loop, or goes on to the next position. */
    method EnableNext(m_c: seq<nat>, k: nat) returns (ok: bool, leave: bool, bound: int)
      requires Valid() && OnSchedule() && InList(m_c) && st.gs == m_c && k < |m_c| && st.spc == STop(k)
      modifies this, alt, Objects()
      ensures Valid() && OnSchedule() && origin == old(origin) && Continues(old(past), past)
      ensures !ok ==> GivenUp(m_c)
      ensures ok ==> st.gs == m_c
      ensures ok && leave ==> st.spc == SFix(bound)
      ensures ok && !leave ==> bound == k + 1 && st.spc == STop(bound)
    {
      hide Inv, Run, OnSchedule, Blocked, Separate, Linked;
      leave, bound := false, k;
      ok := LockAlt(AltLock);
      if !ok { return; }
      KindOfGuardNow(m_c[k]);
      var ready;
      ok, ready := TestReady();
      if !ok { return; }
      // no guard has been found ready, and no partner has called schedule
      if !ready {
        ok, leave := EnableAt(m_c, k);
        if !ok { return; }
        bound := if leave then k else k + 1;
      } else {
        leave, bound := true, k - 1;
      }
      ok := UnlockAlt();
    }

    /** The enabling loop; it leaves in `bound` the position it stopped at. */
    method EnableAll(m_c: seq<nat>) returns (ok: bool, bound: int)
      requires Valid() && OnSchedule() && InList(m_c) && st.gs == m_c && st.spc == STop(0)
      modifies this, alt, Objects()
      ensures Valid() && OnSchedule() && origin == old(origin) && Continues(old(past), past)
      ensures !ok ==> GivenUp(m_c)
      ensures ok ==> st.spc == SFix(bound) && st.gs == m_c
    {
      hide Inv, Run, OnSchedule, Blocked, Separate, Linked;
      bound := 0;
      while bound < |m_c|
        invariant Valid() && OnSchedule() && origin == old(origin) && Continues(old(past), past)
        invariant st.gs == m_c && 0 <= bound <= |m_c| && st.spc == STop(bound)
        decreases |m_c| - bound
      {
        var leave;
        ok, leave, bound := EnableNext(m_c, bound);
        if !ok || leave { return; }
      }
      ok := Local();
    }

    /** The block that waits unless a guard is ready. */
    method AwaitReady(m_c: seq<nat>, ghost bound: int) returns (ok: bool)
      requires Valid() && OnSchedule() && st.gs == m_c && st.spc == SWLock(bound)
      modifies this, alt, Objects()
      ensures Valid() && OnSchedule() && origin == old(origin) && Continues(old(past), past)
      ensures !ok ==> GivenUp(m_c)
      ensures ok ==> st.spc == SDis(bound, 0) && st.gs == m_c && st.selected == |m_c|
    {
      hide Inv, Run, OnSchedule, Blocked, Separate, Linked;
      ok := LockAlt(AltLock);
      if !ok { return; }
      var wait;
      ok, wait := WaitUnlessReady();
      if !ok { return; }
      if wait {
        ok := LockAlt(AltSignal);
        if !ok { return; }
      }
      ok := UnlockAlt();
    }

    /** The disabling loop, which finds the position of m_selector. */
    method DisableAll(m_c: seq<nat>, bound: int) returns (ok: bool, selected: int)
      requires Valid() && OnSchedule() && InList(m_c) && st.gs == m_c
      requires st.spc == SDis(bound, 0) && st.selected == |m_c| && bound < |m_c|
      modifies this, alt, Objects()
      ensures Valid() && OnSchedule() && origin == old(origin) && Continues(old(past), past)
      ensures !ok ==> GivenUp(m_c)
      ensures ok ==> st.spc == SEnd && st.gs == m_c && st.selected == selected
    {
      hide Inv, Run, OnSchedule, Blocked, Separate, Linked;
      selected := |m_c|;
      var i := 0;
      while i <= bound
        invariant Valid() && OnSchedule() && origin == old(origin) && Continues(old(past), past)
        invariant st.gs == m_c && 0 <= i && st.spc == SDis(bound, i) && st.selected == selected
        decreases bound - i
      {
        var care;
        ok, care := IsSelector(m_c[i]);
        if !ok { return; }
        if care {
          selected := i;
        }
        ok := DisableAt(m_c, bound, i, care);
        if !ok { return; }
        i := i + 1;
      }
      ok := Local();
    }

    /** The configuration right after the call of select. */
    ghost function Called(m_c: seq<nat>): Config
      reads this`st, this`turns, this`past
    {
      Config(st.(gs := m_c, spc := SStart), turns, past + [CallSelect(m_c)])
    }

    /** The call of select, and m_state = eEnabling. */
    method Begin(m_c: seq<nat>) returns (ok: bool)
      requires Valid() && st.spc.SIdle? && GoodList(st, m_c)
      modifies this, alt, Objects()
      ensures Valid() && OnSchedule() && origin == old(Called(m_c)) && InList(m_c)
      ensures Continues(old(past) + [CallSelect(m_c)], past)
      ensures !ok ==> GivenUp(m_c)
      ensures ok ==> st.gs == m_c && st.spc == STop(0)
    {
      hide Inv, Run, Blocked, Separate, GuardShows, Awaited;
      AltStays(st, st.(gs := m_c, spc := SStart));
      ghost var c := Called(m_c);
      Tick(CallSelect(m_c));
      origin, steps := c, 0;
      ok := Start();
    }

    /** select from its call to the end of the enabling loop, with the adjusted bound. */
    method EnableGuards(m_c: seq<nat>) returns (ok: bool, bound: int)
      requires Valid() && st.spc.SIdle? && GoodList(st, m_c)
      modifies this, alt, Objects()
      ensures Valid() && OnSchedule() && origin == old(Called(m_c)) && InList(m_c)
      ensures Continues(old(past) + [CallSelect(m_c)], past)
      ensures !ok ==> GivenUp(m_c)
      ensures ok ==> st.spc == SWLock(bound) && st.gs == m_c
    {
      hide Inv, Run, OnSchedule, Blocked, Separate, Linked;
      bound := 0;
      ok := Begin(m_c);
      if !ok { return; }
      ok, bound := EnableAll(m_c);
      if !ok { return; }
      if bound == |m_c| {
        bound := bound - 1;
      }
      ok := Local();
    }

    /** By its fields, the partner of the guard has arrived and waits. */
    ghost predicate Visited(p: Altable)
      reads Address(p)
    {
      match p
      case AChannel(c) => !c.m_bEmpty && Partner in c.m_cond
      case ABarrier(b) => b.m_parts == 1 && Partner in b.m_cond
    }

    lemma ChosenIsVisited(p: nat)
      requires Valid() && st.spc == SChosen(p)
      ensures InRange(st, p) && st.gs[p] < |guards| && Visited(guards[st.gs[p]])
    {
      ChosenIsReady(st, p);
      var x := st.gs[p];
      assert GuardOk(st.g[x], Kept, st.astate, st.selector == Some(x));
      hide Run, Separate, EnrolOk, SchedOk, CountOk, LockOk;
    }

    lemma BoundInList()
      requires Valid() && st.spc.SDis?
      ensures st.spc.b < |st.gs|
    {
      hide Linked, Run, Separate;
    }

    /**
     select over the guards m_c.  If it returns a position, the partner of that guard has arrived and
     sleeps inside its call, by the fields of the guard too.  If it does not, the schedule has left it
     blocked; and when the partners cannot move either, none of them has called any of the guards.
     */
    method Select(m_c: seq<nat>) returns (r: Option<int>)
      requires Valid() && st.spc.SIdle? && GoodList(st, m_c)
      modifies this, alt, Objects()
      ensures Valid() && Continues(old(past) + [CallSelect(m_c)], past)
      ensures Driven(old(Called(m_c)), Here())
      ensures r.None? ==> GivenUp(m_c)
      ensures r.None? && (forall i: nat :: !PartnerCan(st, i)) ==>
                forall k :: 0 <= k < |m_c| ==> m_c[k] < |st.g| && st.g[m_c[k]].ppc.PIdle?
      ensures r.Some? ==>
                && st.spc == SChosen(r.value) && st.gs == m_c && InRange(st, r.value)
                && Arrived(st.g[m_c[r.value]]) && st.g[m_c[r.value]].ppc.PAsleep?
      ensures r.Some? ==> m_c[r.value] < |guards| && Visited(guards[m_c[r.value]])
    {
      hide Inv, Run, Blocked, Separate, Linked, PartnerCan, Arrived, Drive, OnSchedule;
      var ok, bound := EnableGuards(m_c);
      if ok {
        ok := AwaitReady(m_c, bound);
      }
      var selected;
      if ok {
        BoundInList();
        ok, selected := DisableAll(m_c, bound);
      }
      if ok {
        ok := Finish();
      }
      KeptMeans();
      if ok {
        ChosenIsReady(st, selected);
        ChosenIsVisited(selected);
        return Some(selected);
      }
      if forall i: nat :: !PartnerCan(st, i) {
        NobodyCalled(m_c);
      }
      return None;
    }

    lemma KeptMeans()
      requires OnSchedule()
      ensures Driven(origin, Here())
    {
    }

    /** When neither the selecting thread nor a partner can move, no partner has called a guard of the list. */
    lemma NobodyCalled(m_c: seq<nat>)
      requires Valid() && GivenUp(m_c) && forall i: nat :: !PartnerCan(st, i)
      ensures forall k :: 0 <= k < |m_c| ==> m_c[k] < |st.g| && st.g[m_c[k]].ppc.PIdle?
    {
      assert Reachable(st);
      assert Stuck(st);
      hide Reachable, Stuck, Inv, Run, Linked, Separate, PartnerCan, SelectStep;
      StuckIsSettled(st);
    }

    // ---------- read, sync and sync_sem of the selecting thread ----------

    /** The selecting thread runs on inside read at guard x to its next boundary. */
    method RunRead(x: nat, c: One2OneChannel, at: Boundary) returns (next: Boundary, copied: Option<int>)
      requires Separate() && Linked(st) && UseOk(st) && x < |guards| && guards[x] == AChannel(c)
      requires st.spc.SUse? && st.spc.x == x && at == UseAt(Some(st.spc.u)) && SelectStep(st).Some?
      modifies c
      ensures Linked(SelectStep(st).value)
      ensures next == AtUse(SelectStep(st).value)
      ensures SelectStep(st).value.g[x].got == st.g[x].got + (if copied.Some? then [copied.value] else [])
    {
      hide SelectStep, UseMove, UseNext, PartnerMove, One2OneChannel.Shows, Barrier2.Shows, UseCan;
      UseEffect(st);
      KindOfGuard(x);
      var ran;
      if at.Lock? || at.Body? {
        ran, next, copied := c.Read(at, st.spc.u, st.g[x], buffers[x], alt);
      } else {
        ran, next, copied := c.FinishRead(at, st.spc.u, st.g[x], buffers[x], alt);
      }
      assert LinkedBut(x, st) && alt.Shows(st, guards);
      hide Linked, LinkedBut, Separate, Alternative.Shows;
      AltStays(st, SelectStep(st).value);
      Relink(x, st, SelectStep(st).value);
    }

    /** The selecting thread runs on inside sync at guard x to its next boundary. */
    method RunSync(x: nat, b: Barrier2, at: Boundary) returns (next: Boundary)
      requires Separate() && Linked(st) && UseOk(st) && x < |guards| && guards[x] == ABarrier(b)
      requires st.spc.SUse? && st.spc.x == x && at == UseAt(Some(st.spc.u)) && SelectStep(st).Some?
      modifies b
      ensures Linked(SelectStep(st).value)
      ensures next == AtUse(SelectStep(st).value)
    {
      hide SelectStep, UseMove, UseNext, PartnerMove, One2OneChannel.Shows, Barrier2.Shows, UseCan;
      UseEffect(st);
      KindOfGuard(x);
      var ran;
      if at.Sem? || at.Lock? || at.Body? {
        ran, next := b.Sync(Selecting, at, st.spc.u, InWaitSet(st, x), st.g[x], st.astate, alt);
      } else {
        ran, next := b.FinishSync(Selecting, at, st.spc.u, InWaitSet(st, x), st.g[x], st.astate, alt);
      }
      assert LinkedBut(x, st) && alt.Shows(st, guards);
      hide Linked, LinkedBut, Separate, Alternative.Shows;
      AltStays(st, SelectStep(st).value);
      Relink(x, st, SelectStep(st).value);
    }

    /** One step of the use of guard x, which is possible. */
    method UseNow(x: nat, at: Boundary) returns (next: Boundary, copied: Option<int>)
      requires Valid() && Waited() && st.spc.SUse? && st.spc.x == x < |guards| && at == AtUse(st)
      requires SelectStep(st).Some?
      modifies this`st, this`past, this`steps, Address(guards[x])
      ensures Valid() && OnSchedule() && origin == old(origin)
      ensures past == old(past) + [Label.Select] && SelectStep(old(st)) == Some(st)
      ensures next == AtUse(st) && |st.g| == |old(st).g| == |guards|
      ensures st.g[x].got == old(st.g[x].got) + (if copied.Some? then [copied.value] else [])
    {
      InvUse(st);
      UseEffect(st);
      KindOfGuardNow(x);
      copied := None;
      hide Inv, Run, Separate, SelectStep, UseOk, Linked, AtUse, GuardShows, UseMove, UseNext;
      match guards[x] {
        case AChannel(c) => next, copied := RunRead(x, c, at);
        case ABarrier(b) => next := RunSync(x, b, at);
      }
      TickSelect();
    }

    /** Others take their turns until the next step of the use of guard x is possible. */
    method UseTurn(x: nat, at: Boundary) returns (ok: bool)
      requires Valid() && OnSchedule() && st.spc.SUse? && st.spc.x == x < |guards| && at == AtUse(st)
      modifies this, alt, Objects()
      ensures Valid() && origin == old(origin) && (if ok then Waited() else OnSchedule())
      ensures Continues(old(past), past) && |st.g| == |old(st).g| == |guards|
      ensures st.spc.SUse? && st.spc.x == x && at == AtUse(st)
      ensures UseLeft(st) <= UseLeft(old(st)) && st.g[x].got == old(st).g[x].got
      ensures if ok then SelectStep(st).Some? else turns == [] && Blocked(st)
      ensures Prompt(old(st)) ==> ok && Prompt(st)
    {
      InvUse(st);
      NeedInUse(st);
      GuardsOfState();
      hide Inv, Run, Separate, SelectStep, UseOk, Linked, AtUse, Prompt, UseLeft, Blocked;
      ok := Turn(UseNeed(at, x));
      UseStays(old(st), st);
      GuardsOfState();
      if Prompt(old(st)) {
        PromptStays(old(st), st);
        PromptMoves(st);
        if !ok { BlockedMeans(st); }
      }
    }

    /** One step of the use of guard x, as soon as it is possible. */
    method UseOnce(x: nat, at: Boundary) returns (ok: bool, next: Boundary, copied: Option<int>)
      requires Valid() && OnSchedule() && st.spc.SUse? && st.spc.x == x < |guards| && at == AtUse(st)
      modifies this, alt, Objects()
      ensures Valid() && OnSchedule() && origin == old(origin)
      ensures Continues(old(past), past) && |st.g| == |old(st).g| == |guards|
      ensures !ok ==> turns == [] && Blocked(st)
      ensures Prompt(old(st)) ==> ok && (next != Done ==> Prompt(st))
      ensures ok ==>
                && next == AtUse(st) && (if next == Done then st.spc.SIdle? else st.spc.SUse? && st.spc.x == x)
                && UseLeft(st) < UseLeft(old(st))
                && st.g[x].got == old(st).g[x].got + (if copied.Some? then [copied.value] else [])
                && (copied.Some? <==> guards[x].AChannel? && !HasCopied(at) && HasCopied(next))
                && (guards[x].AChannel? && HasCopied(at) ==> HasCopied(next))
    {
      hide Linked, Inv, Run, Separate, SelectStep, UseOk, AtUse, Prompt, HasCopied, UseLeft, Blocked;
      next, copied := at, None;
      ok := UseTurn(x, at);
      if ok {
        InvUse(st);
        UseEffect(st);
        UseProgress(st);
        KindOfGuardNow(x);
        if Prompt(st) { PromptMoves(st); }
        next, copied := UseNow(x, at);
        DoneIsIdle(st);
      }
    }

    /** The use of guard x from its beginning to its return: read, sync or sync_sem; read returns what it copied. */
    method Use(x: nat, start: Boundary) returns (ok: bool, copied: Option<int>)
      requires Valid() && OnSchedule() && st.spc.SUse? && st.spc.x == x < |guards|
      requires start == AtUse(st) && (start.Sem? || start.Lock?)
      modifies this, alt, Objects()
      ensures Valid() && OnSchedule() && origin == old(origin)
      ensures Continues(old(past), past) && |st.g| == |old(st.g)| == |guards|
      ensures Prompt(old(st)) ==> ok
      ensures !ok ==> turns == [] && Blocked(st)
      ensures ok ==> st.spc.SIdle? && (copied.Some? <==> guards[x].AChannel?)
      ensures ok ==> st.g[x].got == old(st.g[x].got) + (if copied.Some? then [copied.value] else [])
    {
      KindOfGuardNow(x);
      assert !HasCopied(start) && HasCopied(Done);
      assert Continues(past, past);
      hide Valid, OnSchedule, Blocked, Prompt, AtUse, HasCopied, UseLeft, Continues;
      var at := start;
      ok, copied := true, None;
      while at != Done
        invariant Valid() && OnSchedule() && origin == old(origin)
        invariant Continues(old(past), past) && |st.g| == |old(st.g)| == |guards|
        invariant at == AtUse(st) && if at == Done then st.spc.SIdle? else st.spc.SUse? && st.spc.x == x
        invariant Prompt(old(st)) ==> at == Done || Prompt(st)
        invariant st.g[x].got == old(st.g[x].got) + (if copied.Some? then [copied.value] else [])
        invariant copied.Some? <==> guards[x].AChannel? && HasCopied(at)
        decreases UseLeft(st)
      {
        ghost var a := past;
        var c;
        ok, at, c := UseOnce(x, at);
        ContinuesTwice(old(past), a, past);
        if !ok { return; }
        if c.Some? {
          copied := c;
        }
      }
    }

    /** The configuration right after the call of read, or sync, on guard x. */
    ghost function CalledUse(x: nat): Config
      requires st.spc.SIdle? && x < |st.g|
      reads this`st, this`turns, this`past
    {
      Config(Next(st, CallUse(x)).value, turns, past + [CallUse(x)])
    }

    /** A call of the selecting thread changes none of the fields. */
    lemma CallLinked(x: nat)
      requires Linked(st) && st.spc.SIdle? && x < |st.g|
      ensures Linked(Next(st, CallUse(x)).value)
    {
      hide GuardShows;
      AltStays(st, Next(st, CallUse(x)).value);
    }

    /** The call of read, or of sync, on guard x. */
    method BeginUse(x: nat) returns (at: Boundary)
      requires Valid() && st.spc.SIdle? && x < |guards| == |st.g|
      modifies this`st, this`past, this`origin, this`steps
      ensures Valid() && OnSchedule() && origin == Here() == old(CalledUse(x)) && past == old(past) + [CallUse(x)]
      ensures st.spc.SUse? && st.spc.x == x && at == AtUse(st) && (at.Sem? || at.Lock?) && st.g == old(st).g
    {
      hide Inv, Next, UseAt;
      KindOfGuardNow(x);
      CallUseEffect(st, x);
      CallLinked(x);
      Tick(CallUse(x));
      origin, steps := Here(), 0;
      Undriven(origin);
      at := if guards[x].AChannel? then Lock else Sem;
    }

    /** read, or sync, on guard x: read returns the value of a write, in the order of the writes. */
    method Meet(x: nat) returns (ok: bool, copied: Option<int>)
      requires Valid() && st.spc.SIdle? && x < |guards| == |st.g|
      modifies this, alt, Objects()
      ensures Valid() && Continues(old(past) + [CallUse(x)], past)
      ensures Driven(old(CalledUse(x)), Here())
      ensures |st.g| == |old(st).g| == |guards|
      ensures if ok then st.spc.SIdle? else turns == [] && Blocked(st)
      ensures ok && guards[x].AChannel? ==>
                && copied.Some? && st.g[x].got == old(st).g[x].got + [copied.value]
                && |old(st).g[x].got| < |st.g[x].sent| && copied.value == st.g[x].sent[|old(st).g[x].got|]
    {
      hide Valid, Run, OnSchedule, Driven, Continues, Blocked, AtUse;
      var at := BeginUse(x);
      ok, copied := Use(x, at);
      KeptMeans();
      if ok && guards[x].AChannel? {
        ReadIsWrite(x);
      }
    }

    lemma ReadIsWrite(x: nat)
      requires Valid() && x < |guards| && guards[x].AChannel?
      ensures x < |st.g| && st.g[x].got <= st.g[x].sent
    {
      KindOfGuardNow(x);
      assert Reachable(st);
      hide Reachable, Inv, Run, Linked, Separate;
      ReadsAreWrites(st, x);
    }

    /** The step from select to the use of the guard it has returned. */
    method Choose()
      requires Valid() && st.spc.SChosen?
      modifies this, alt, Objects()
      ensures Valid() && OnSchedule() && origin == old(Here()) && Continues(old(past), past)
      ensures InRange(old(st), old(st).spc.p) && st.spc == SUse(old(st).gs[old(st).spc.p], ULock(true))
      ensures |st.g| == |old(st).g| && forall y :: 0 <= y < |st.g| ==> st.g[y].got == old(st).g[y].got
    {
      hide Inv, Run, Separate, GuardShows, Awaited, SelectStep, Advanced, Undisturbed;
      origin, steps := Here(), 0;
      hide Drive;
      var ok := Turn(Nothing);
      assert ok by { CanMoveIff(st); }
      SameGot(old(st), st);
      ChooseEffect(st);
      Tock(|guards|, old(st));
    }

    lemma ChosenFacts(p: nat)
      requires Valid() && st.spc == SChosen(p)
      ensures Run(Init(kinds, first), past) == Some(st) && |st.g| == |guards| && InRange(st, p)
      ensures guards[st.gs[p]].ABarrier? <==> st.g[st.gs[p]].kind.Barrier?
    {
      ChosenIsReady(st, p);
      hide Inv, Run, Separate;
      KindOfGuard(st.gs[p]);
    }

    /**
     What the caller of select does with the position p that it returned: read, or sync_sem.  It
     returns whatever the schedule, and a read returns the value of the write that was pending.
     */
    method MeetChosen(m_c: seq<nat>, p: nat) returns (copied: Option<int>)
      requires Valid() && p < |m_c| && st.gs == m_c && st.spc == SChosen(p)
      modifies this, alt, Objects()
      ensures Valid() && Continues(old(past), past) && st.spc.SIdle?
      ensures Driven(old(Here()), Here())
      ensures m_c[p] < |guards| == |old(st).g|
      ensures guards[m_c[p]].AChannel? ==>
                var g := old(st).g[m_c[p]]; |g.sent| == |g.got| + 1 && copied == Some(g.sent[|g.got|])
    {
      hide Valid, Run, OnSchedule, Driven, Continues;
      ChosenFacts(p);
      var x := m_c[p];
      ghost var s, a := st, past;
      Choose();
      var ok;
      ghost var b := past;
      ok, copied := Use(x, Lock);
      ContinuesTwice(a, b, past);
      ContinuesMeans(a, past);
      KeptMeans();
      if guards[x].AChannel? {
        PendingCopied(s, a, p);
      }
    }

    lemma PendingCopied(s: State, a: seq<Label>, p: nat)
      requires Valid() && Run(Init(kinds, first), a) == Some(s) && a <= past
      requires s.spc == SChosen(p) && InRange(s, p) && s.g[s.gs[p]].kind.Channel?
      ensures var x := s.gs[p];
              && |s.g[x].sent| == |s.g[x].got| + 1 && |st.g| == |s.g|
              && (|st.g[x].got| > |s.g[x].got| ==> st.g[x].got[|s.g[x].got|] == s.g[x].sent[|s.g[x].got|])
    {
      var i := Init(kinds, first);
      assert Run(i, past) == Some(st);
      hide Linked, Inv, Separate;
      assert Run(i, []) == Some(i);
      assert Reachable(i);
      hide Run;
      PendingIsRead(i, a, past, p);
    }

    lemma GuardsOfState()
      requires Valid()
      ensures |st.g| == |guards|
    {
    }
  }
}
