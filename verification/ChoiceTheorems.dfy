/** What the users of select, read, write and sync may rely on, for every run. */
module ChoiceTheorems {
  import opened Wrappers
  import opened Guards
  import opened Choice
  import opened ChoiceInvariant
  import opened ChoiceSteps

  /** Some run of some system of guards reaches s. */
  ghost predicate Reachable(s: State) {
    exists kinds: seq<Kind>, a: AltState, ls: seq<Label> :: Run(Init(kinds, a), ls) == Some(s)
  }

  lemma ReachableInv(s: State)
    requires Reachable(s)
    ensures Inv(s)
  {
    var kinds, a, ls :| Run(Init(kinds, a), ls) == Some(s);
    InitOk(kinds, a);
    hide Inv;
    RunKeeps(Init(kinds, a), ls);
  }

  lemma {:induction false} RunAppend(s: State, ls: seq<Label>, ms: seq<Label>)
    requires Run(s, ls).Some?
    ensures Run(s, ls + ms) == Run(Run(s, ls).value, ms)
    decreases |ls|
  {
    if ls == [] {
      assert ls + ms == ms;
    } else {
      assert (ls + ms)[1..] == ls[1..] + ms;
      RunAppend(Next(s, ls[0]).value, ls[1..], ms);
    }
  }

  lemma ReachableRun(s: State, ls: seq<Label>)
    requires Reachable(s) && Run(s, ls).Some?
    ensures Reachable(Run(s, ls).value)
  {
    var kinds, a, ks :| Run(Init(kinds, a), ks) == Some(s);
    RunAppend(Init(kinds, a), ks, ls);
  }

  /** What holds of guard x in a state that satisfies the invariant. */
  lemma AtGuard(s: State, x: nat)
    requires Reachable(s) && x < |s.g|
    ensures GuardOk(s.g[x], RoleOf(s, x), s.astate, s.selector == Some(x))
  {
    hide SelOk, EnrolledOk, AltOk, GuardOk;
    ReachableInv(s);
  }

  // ---------- select ----------

  /**
   select returns a position whose partner has arrived and sleeps inside its call; m_selector
   was assigned once, every m_pAlt is NULL again, and no guard is left enrolled.
   */
  lemma SelectReturnsReadyGuard(s: State, p: int)
    requires Reachable(s) && s.spc == SChosen(p)
    ensures InRange(s, p)
    ensures Arrived(s.g[s.gs[p]]) && s.g[s.gs[p]].ppc.PAsleep?
    ensures s.picks == 1
    ensures forall x :: 0 <= x < |s.g| ==> !s.g[x].pAlt && !s.g[x].enrolled
  {
    ReachableInv(s);
    AtGuard(s, s.gs[p]);
    forall x | 0 <= x < |s.g| ensures !s.g[x].pAlt && !s.g[x].enrolled { AtGuard(s, x); }
  }

  /** The use of the guard that select returned does not wait, and a read takes the sleeping writer's data. */
  lemma ChosenUseDoesNotWait(s: State, x: nat)
    requires Reachable(s) && s.spc == SUse(x, UBody(true))
    ensures x < |s.g| && s.g[x].ppc.PAsleep?
    ensures UseNext(s.g[x], UBody(true)) == Some(USignal)
    ensures s.g[x].kind.Channel? ==>
              && s.g[x].sent != []
              && UseMove(s.g[x], UBody(true)).got == s.g[x].got + [s.g[x].sent[|s.g[x].sent| - 1]]
  {
    ReachableInv(s);
    AtGuard(s, x);
  }

  /** The history of every guard only grows. */
  predicate Grows(s: State, t: State) {
    && |t.g| == |s.g|
    && forall x :: 0 <= x < |s.g| ==>
         && t.g[x].kind == s.g[x].kind
         && s.g[x].sent <= t.g[x].sent && s.g[x].got <= t.g[x].got
  }

  lemma GrowsFurther(s: State, t: State, v: State)
    requires Grows(s, t) && Grows(t, v)
    ensures Grows(s, v)
  {
    forall x | 0 <= x < |s.g|
      ensures s.g[x].sent <= v.g[x].sent && s.g[x].got <= v.g[x].got && v.g[x].kind == s.g[x].kind
    {
      assert t.g[x].kind == s.g[x].kind;
    }
  }

  lemma EnableGrows(s: State)
    requires Enables(s.spc) && EnableStep(s).Some?
    ensures Grows(s, EnableStep(s).value)
  {
  }

  lemma DisableGrows(s: State)
    requires Disables(s.spc) && DisableStep(s).Some?
    ensures Grows(s, DisableStep(s).value)
  {
  }

  lemma SelectGrows(s: State)
    requires SelectStep(s).Some?
    ensures Grows(s, SelectStep(s).value)
  {
    if Enables(s.spc) {
      hide Grows, EnableStep;
      EnableGrows(s);
    } else if Disables(s.spc) {
      hide Grows, DisableStep;
      DisableGrows(s);
    } else {
      if s.spc.SUse? { UseGrows(s.g[s.spc.x], s.spc.u); }
      hide UseMove, UseNext, EnableStep, DisableStep;
    }
  }

  lemma StepGrows(s: State, l: Label)
    requires Next(s, l).Some?
    ensures Grows(s, Next(s, l).value)
  {
    hide SelectStep, PartnerMove;
    match l
    case Select => SelectGrows(s);
    case Step(i) => MoveSummary(s.g[i], s.astate);
    case _ =>
  }

  lemma UseGrows(g: Guard, u: UsePc)
    ensures var h := UseMove(g, u); h.kind == g.kind && h.sent == g.sent && g.got <= h.got
  {
  }

  lemma {:induction false} RunGrows(s: State, ls: seq<Label>)
    requires Run(s, ls).Some?
    ensures Grows(s, Run(s, ls).value)
    decreases |ls|
  {
    if ls != [] {
      var t := Next(s, ls[0]).value;
      hide Next, Grows;
      StepGrows(s, ls[0]);
      RunGrows(t, ls[1..]);
      GrowsFurther(s, t, Run(t, ls[1..]).value);
    } else {
    }
  }

  /**
   Whatever happens after select has returned a channel, the next value read from it is the
   value of the write that was pending when select returned.
   */
  lemma SelectedValueIsRead(s: State, p: int, ls: seq<Label>)
    requires Reachable(s) && s.spc == SChosen(p) && InRange(s, p)
    requires s.g[s.gs[p]].kind.Channel? && Run(s, ls).Some?
    ensures var g := s.g[s.gs[p]];
            var t := Run(s, ls).value;
            && |g.sent| == |g.got| + 1
            && |t.g| == |s.g|
            && (|t.g[s.gs[p]].got| > |g.got| ==> t.g[s.gs[p]].got[|g.got|] == g.sent[|g.got|])
  {
    var t := Run(s, ls).value;
    var x := s.gs[p];
    ReachableInv(s);
    AtGuard(s, x);
    ReachableRun(s, ls);
    RunGrows(s, ls);
    AtGuard(t, x);
    assert s.g[x].sent <= t.g[x].sent;
  }

  /** A partner that has come to a guard the selecting thread is not using, and sleeps there. */
  predicate Pending(s: State, x: nat) {
    x < |s.g| && Arrived(s.g[x]) && s.g[x].ppc.PAsleep? && Before(s, x)
  }

  predicate Before(s: State, x: nat) {
    StageOf(RoleOf(s, x)) == Stage.Before
  }

  /** What select itself leaves alone at every guard. */
  lemma EnableLeavesMeeting(s: State, x: nat)
    requires s.spc.SEnSem? || s.spc.SEnLock? || s.spc.SEnBody? || s.spc.SEnUnlock?
    requires EnableStep(s).Some? && x < |s.g|
    ensures var t := EnableStep(s).value;
            && |t.g| == |s.g| && t.g[x].kind == s.g[x].kind && t.g[x].ppc == s.g[x].ppc
            && Arrived(t.g[x]) == Arrived(s.g[x])
            && t.g[x].sent == s.g[x].sent && t.g[x].got == s.g[x].got && t.g[x].returned == s.g[x].returned
  {
  }

  lemma DisableLeavesMeeting(s: State, x: nat)
    requires s.spc.SDisLock? || s.spc.SDisBody? || s.spc.SDisPost? || s.spc.SDisUnlock?
    requires DisableStep(s).Some? && x < |s.g|
    ensures var t := DisableStep(s).value;
            && |t.g| == |s.g| && t.g[x].kind == s.g[x].kind && t.g[x].ppc == s.g[x].ppc
            && Arrived(t.g[x]) == Arrived(s.g[x])
            && t.g[x].sent == s.g[x].sent && t.g[x].got == s.g[x].got && t.g[x].returned == s.g[x].returned
  {
  }

  lemma SelectLeavesMeeting(s: State, x: nat)
    requires SelectStep(s).Some? && x < |s.g| && !(s.spc.SUse? && s.spc.x == x)
    ensures var t := SelectStep(s).value;
            && |t.g| == |s.g| && t.g[x].kind == s.g[x].kind && t.g[x].ppc == s.g[x].ppc
            && Arrived(t.g[x]) == Arrived(s.g[x])
            && t.g[x].sent == s.g[x].sent && t.g[x].got == s.g[x].got && t.g[x].returned == s.g[x].returned
  {
    if s.spc.SEnSem? || s.spc.SEnLock? || s.spc.SEnBody? || s.spc.SEnUnlock? {
      EnableLeavesMeeting(s, x);
    } else if s.spc.SDisLock? || s.spc.SDisBody? || s.spc.SDisPost? || s.spc.SDisUnlock? {
      DisableLeavesMeeting(s, x);
    }
    hide UseMove, UseNext, EnableStep, DisableStep;
  }

  lemma UseMeets(s: State, x: nat)
    requires Reachable(s) && Pending(s, x) && s.spc.SUse? && s.spc.x == x && SelectStep(s).Some?
    ensures var t := SelectStep(s).value;
            && |t.g| == |s.g| && t.g[x].sent == s.g[x].sent
            && (Before(t, x) ==> Pending(t, x) && t.g[x].got == s.g[x].got)
  {
    AtGuard(s, x);
  }

  /** A pending partner stays pending, with the same data, until the selecting thread takes part. */
  lemma PendingStays(s: State, x: nat, l: Label)
    requires Reachable(s) && Pending(s, x) && Next(s, l).Some?
    ensures var t := Next(s, l).value;
            && |t.g| == |s.g| && t.g[x].sent == s.g[x].sent
            && (Before(t, x) ==> Pending(t, x) && t.g[x].got == s.g[x].got)
  {
    hide RoleAt, SelectStep, PartnerMove;
    match l {
      case Select =>
        if s.spc.SUse? && s.spc.x == x { UseMeets(s, x); } else { SelectLeavesMeeting(s, x); }
      case Step(i) => assert i != x; MoveSummary(s.g[i], s.astate);
      case CallSelect(_) =>
      case CallUse(_) =>
      case CallPartner(_, _) =>
    }
  }

  /** enable returns true on a guard with a pending partner, and on no other guard. */
  lemma EnableSeesPending(s: State, k: int)
    requires Reachable(s) && s.spc == SEnBody(k)
    ensures InRange(s, k)
    ensures !EnableCallsSchedule(s.g[s.gs[k]])
    ensures EnableBody(s.g[s.gs[k]]).1 <==> Pending(s, s.gs[k])
  {
    ReachableInv(s);
    AtGuard(s, s.gs[k]);
  }

  /** The selecting thread takes no part in a meeting at x during the run ls from s. */
  predicate TakesNoPart(s: State, ls: seq<Label>, x: nat)
    decreases |ls|
  {
    if ls == [] then true else
    var t := Next(s, ls[0]);
    t.Some? && Before(t.value, x) && TakesNoPart(t.value, ls[1..], x)
  }

  /**
   Over every run in which the selecting thread takes no part at x, a partner that has come there
   stays pending with its data, however often select is called in between; and enable then sees it.
   */
  lemma {:induction false} PendingUntilUsed(s: State, ls: seq<Label>, x: nat)
    requires Reachable(s) && Pending(s, x) && TakesNoPart(s, ls, x)
    ensures Run(s, ls).Some?
    ensures var t := Run(s, ls).value;
            && |t.g| == |s.g| && Pending(t, x) && t.g[x].sent == s.g[x].sent && t.g[x].got == s.g[x].got
            && (t.spc.SEnBody? && Holds(t.gs, t.spc.k, x) ==> EnableBody(t.g[x]).1)
    decreases |ls|
  {
    hide Reachable, Next, Pending, Before, EnableBody;
    if ls == [] {
      if s.spc.SEnBody? && Holds(s.gs, s.spc.k, x) { EnableSeesPending(s, s.spc.k); }
    } else {
      var t := Next(s, ls[0]).value;
      PendingStays(s, x, ls[0]);
      assert Run(s, [ls[0]]) == Some(t) by { assert Run(t, [ls[0]][1..]) == Some(t); }
      ReachableRun(s, [ls[0]]);
      PendingUntilUsed(t, ls[1..], x);
    }
  }

  /**
   No arrival is lost while the selecting thread sleeps in select: unless a partner is about to
   signal it, m_state is eWaiting, the whole list is enrolled, and no guard whose mutex is free
   has an arrived partner.
   */
  lemma NoLostWakeUp(s: State)
    requires Reachable(s) && s.spc.SAsleep? && !SignalDue(s)
    ensures s.astate == Waiting
    ensures forall k :: 0 <= k < |s.gs| ==>
              InRange(s, k) && s.g[s.gs[k]].pAlt && (s.g[s.gs[k]].sync == Free ==> !Arrived(s.g[s.gs[k]]))
  {
    ReachableInv(s);
    forall k | 0 <= k < |s.gs|
      ensures InRange(s, k) && s.g[s.gs[k]].pAlt && (s.g[s.gs[k]].sync == Free ==> !Arrived(s.g[s.gs[k]]))
    {
      AtGuard(s, s.gs[k]);
    }
  }

  /**
   The call of schedule by the first arrival, and only that one, makes the alternative ready; its
   signal finds the selecting thread asleep.
   */
  lemma SchedulePicksOnce(s: State, i: nat)
    requires Reachable(s) && i < |s.g|
    ensures s.g[i].ppc.PInSched? ==>
              && s.astate != Inactive
              && s.picks == One(s.astate == Ready)
              && At(s.gs, 0, Hi(s.spc, |s.gs|), i)
              && var t := PartnerStep(s, i).value;
                 t.astate == Ready && t.picks == 1 && t.selector == (if s.astate == Ready then s.selector else Some(i))
    ensures s.g[i].ppc.PSchedSignal? ==>
              && s.spc.SAsleep? && s.astate == Ready && s.selector == Some(i)
              && PartnerStep(s, i).value.spc == SWoken(s.spc.b)
  {
    ReachableInv(s);
    AtGuard(s, i);
    if s.g[i].ppc.PInSched? {
      EnrolledMeansActive(s, i);
      assert At(s.gs, Lo(s.spc), Hi(s.spc, |s.gs|), i);
      var j :| 0 <= j < |s.gs| && Lo(s.spc) <= j < Hi(s.spc, |s.gs|) && s.gs[j] == i;
      assert At(s.gs, 0, Hi(s.spc, |s.gs|), i);
    }
  }

  /** `--bound` never goes below zero, and bound ends inside the list. */
  lemma BoundStaysInList(s: State)
    requires Reachable(s)
    ensures s.spc.SBody? && s.astate == Ready ==> s.spc.k >= 1
    ensures s.spc.SFix? ==> 0 <= s.spc.b <= |s.gs|
    ensures s.spc.SDis? ==> 0 <= s.spc.b < |s.gs|
  {
    ReachableInv(s);
  }

  /** disable is called on a guard exactly when enable has been called on it and disable has not. */
  lemma DisableCoversEnabled(s: State)
    requires Reachable(s)
    ensures s.spc.SDis? ==>
              forall k :: 0 <= k < |s.gs| ==> InRange(s, k) && (s.g[s.gs[k]].enrolled <==> s.spc.i <= k <= s.spc.b)
    ensures s.spc.SDisLock? ==> InRange(s, s.spc.i) && s.g[s.gs[s.spc.i]].enrolled
    ensures s.spc.SEnd? || s.spc.SIdle? ==> forall x :: 0 <= x < |s.g| ==> !s.g[x].enrolled
  {
    ReachableInv(s);
    if s.spc.SDis? {
      forall k | 0 <= k < |s.gs| ensures InRange(s, k) && (s.g[s.gs[k]].enrolled <==> s.spc.i <= k <= s.spc.b) {
        if !(s.spc.i <= k <= s.spc.b) { NotEnrolledAt(s, k); }
      }
    }
  }

  // ---------- Barrier2 with one alternating side ----------

  /** The semaphore and the permits held always add up to two, so no sem_wait ever blocks. */
  lemma PermitsConserved(s: State, x: nat)
    requires Reachable(s) && x < |s.g| && s.g[x].kind.Barrier?
    ensures s.g[x].sem + One(PartnerPermit(s.g[x].ppc)) + One(SelectingPermit(s.g[x].enrolled, RoleOf(s, x))) == 2
    ensures s.g[x].ppc.PSem? ==> s.g[x].sem > 0
    ensures s.spc == SUse(x, USem) ==> s.g[x].sem > 0
    ensures s.spc.SEnSem? && Holds(s.gs, s.spc.k, x) ==> s.g[x].sem > 0
  {
    ReachableInv(s);
    AtGuard(s, x);
    if s.spc.SEnSem? && Holds(s.gs, s.spc.k, x) { NotEnrolledAt(s, s.spc.k); }
  }

  /** When select returns a barrier its partner waits with m_parts = 1, and sync_sem releases it. */
  lemma ChosenBarrierReleases(s: State, x: nat)
    requires Reachable(s) && s.spc == SUse(x, UBody(true)) && x < |s.g| && s.g[x].kind.Barrier?
    ensures s.g[x].parts == 1 && s.g[x].ppc.PAsleep?
    ensures UseMove(s.g[x], UBody(true)).parts == 2
  {
    AtGuard(s, x);
  }

  // ---------- Signals ----------

  /** The two users of a guard never wait on its condition together, and every signal finds one waiter. */
  lemma SignalsMeetOneWaiter(s: State, x: nat)
    requires Reachable(s) && x < |s.g|
    ensures !(s.g[x].ppc.PAsleep? && s.spc == SUse(x, UAsleep))
    ensures s.g[x].ppc.PSignal? ==> s.spc == SUse(x, UAsleep)
    ensures s.spc == SUse(x, USignal) ==> s.g[x].ppc.PAsleep?
  {
    AtGuard(s, x);
  }

  // ---------- One2OneChannel is a synchronous channel ----------

  /** A synchronous channel: writes called, values transferred, and writes returned. */
  datatype Rendezvous = Rendezvous(sent: seq<int>, got: seq<int>, returned: nat)

  /** A write begins when the last one has returned; one transfer takes its value; then it may return. */
  predicate RendezvousStep(a: Rendezvous, b: Rendezvous) {
    || (|a.sent| == a.returned && |b.sent| == |a.sent| + 1 && a.sent <= b.sent && b == a.(sent := b.sent))
    || (|a.got| == a.returned < |a.sent| && b == a.(got := a.got + [a.sent[|a.got|]]))
    || (a.returned < |a.got| && b == a.(returned := a.returned + 1))
  }

  function View(g: Guard): Rendezvous {
    Rendezvous(g.sent, g.got, g.returned)
  }

  /** The values read are the values written, in order, and a write returns only after its value was copied. */
  lemma ReadsAreWrites(s: State, x: nat)
    requires Reachable(s) && x < |s.g| && s.g[x].kind.Channel?
    ensures var g := s.g[x];
            && g.returned <= |g.got| <= |g.sent| <= g.returned + 1
            && g.got == g.sent[..|g.got|]
  {
    AtGuard(s, x);
  }

  /** Every copy through m_pBuff happens while the writer that owns the buffer sleeps inside write. */
  lemma CopyFromLiveBuffer(s: State, x: nat)
    requires Reachable(s) && x < |s.g| && s.g[x].kind.Channel?
    requires s.spc == SUse(x, UCopy) || (s.spc.SUse? && s.spc.x == x && s.spc.u.UBody? && !s.g[x].bEmpty)
    ensures var g := s.g[x];
            && g.ppc.PAsleep? && g.returned == |g.sent| - 1
            && g.pBuff == Some(|g.sent| - 1) && Contents(g) == g.sent[|g.sent| - 1]
  {
    AtGuard(s, x);
  }

  lemma PartnerRefines(g: Guard, r: Role, a: AltState, picked: bool)
    requires GuardOk(g, r, a, picked) && g.kind.Channel? && CanMove(g, a)
    ensures View(PartnerMove(g, a)) == View(g) || RendezvousStep(View(g), View(PartnerMove(g, a)))
  {
  }

  lemma UseRefines(g: Guard, u: UsePc, a: AltState, picked: bool)
    requires GuardOk(g, Use(u), a, picked) && g.kind.Channel? && CanUse(g, u)
    ensures View(UseMove(g, u)) == View(g) || RendezvousStep(View(g), View(UseMove(g, u)))
  {
  }

  /** Every step of the system is, at every channel, a step of the synchronous channel or none at all. */
  lemma ChannelRefinesRendezvous(s: State, l: Label, x: nat)
    requires Reachable(s) && Next(s, l).Some? && x < |s.g| && s.g[x].kind.Channel?
    ensures var t := Next(s, l).value;
            x < |t.g| && (View(t.g[x]) == View(s.g[x]) || RendezvousStep(View(s.g[x]), View(t.g[x])))
  {
    hide SelOk, EnrolledOk, AltOk, GuardsOk;
    ReachableInv(s);
    hide GuardOk, PartnerMove, UseMove, RendezvousStep, Reachable;
    AtGuard(s, x);
    if l.Select? {
      if s.spc.SUse? && s.spc.x == x {
        UseRefines(s.g[x], s.spc.u, s.astate, s.selector == Some(x));
      } else {
        SelectLeavesMeeting(s, x);
        hide SelectStep;
      }
    } else if l == Step(x) {
      PartnerCanMove(s, x);
      PartnerRefines(s.g[x], RoleOf(s, x), s.astate, s.selector == Some(x));
    } else if l.CallPartner? && l.i == x {
      CallsRefine(s.g[x], RoleOf(s, x), s.astate, s.selector == Some(x), l.v);
    }
  }

  lemma CallsRefine(g: Guard, r: Role, a: AltState, picked: bool, v: int)
    requires GuardOk(g, r, a, picked) && g.kind.Channel? && g.ppc.PIdle?
    ensures RendezvousStep(View(g), View(g.(sent := g.sent + [v], ppc := PLock)))
  {
  }
}
