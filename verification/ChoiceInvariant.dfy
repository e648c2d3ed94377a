/**
 The invariant of the choice protocol, and the proof that every step keeps it.

 `GuardOk` speaks of one guard and of what the selecting thread is doing to it (its role
 there); `SelOk` ties the loops of select to the set of enrolled guards, the alternative's
 mutex and m_state.
 */
module ChoiceInvariant {
  import opened Wrappers
  import opened Guards
  import opened Choice

  // ---------- What the selecting thread is doing to guard x ----------

  datatype Role =
    | Away
    | EnLock | EnBody | EnUnlock(r: bool)
    | DisLock(care: bool) | DisBody(care: bool) | DisPost | DisUnlock(care: bool)
    | Kept              // disabled with care = true and not used yet
    | Use(u: UsePc)

  predicate Holds(gs: seq<nat>, k: int, x: nat) {
    0 <= k < |gs| && gs[k] == x
  }

  function KeptOrAway(gs: seq<nat>, selected: int, x: nat): Role {
    if Holds(gs, selected, x) then Kept else Away
  }

  function RoleAt(spc: SelPc, gs: seq<nat>, selected: int, x: nat): Role {
    match spc
    case SEnLock(k) => if Holds(gs, k, x) then EnLock else Away
    case SEnBody(k) => if Holds(gs, k, x) then EnBody else Away
    case SEnUnlock(k, r) => if Holds(gs, k, x) then EnUnlock(r) else Away
    case SDis(_, _) => KeptOrAway(gs, selected, x)
    case SDisLock(_, i, care) => if Holds(gs, i, x) then DisLock(care) else KeptOrAway(gs, selected, x)
    case SDisBody(_, i, care) => if Holds(gs, i, x) then DisBody(care) else KeptOrAway(gs, selected, x)
    case SDisPost(_, i) => if Holds(gs, i, x) then DisPost else KeptOrAway(gs, selected, x)
    case SDisUnlock(_, i, care) => if Holds(gs, i, x) then DisUnlock(care) else KeptOrAway(gs, selected, x)
    case SEnd => KeptOrAway(gs, selected, x)
    case SChosen(_) => KeptOrAway(gs, selected, x)
    case SUse(y, u) => if x == y then Use(u) else Away
    case _ => Away
  }

  function RoleOf(s: State, x: nat): Role {
    RoleAt(s.spc, s.gs, s.selected, x)
  }

  predicate HoldsGuard(r: Role) {
    match r
    case EnBody => true
    case EnUnlock(_) => true
    case DisBody(_) => true
    case DisPost => true
    case DisUnlock(_) => true
    case Use(u) => u.UBody? || u.USched? || u.UInSched? || u.USchedUnlock? || u.UWait?
                   || u.UCopy? || u.USignal? || u.UPost? || u.UUnlock?
    case _ => false
  }

  predicate PartnerHolds(p: PartnerPc) {
    p.PBody? || InSchedule(p) || p.PSignal? || p.PWait? || p.PPost? || p.PUnlock?
  }

  predicate InSchedule(p: PartnerPc) {
    p.PSched? || HoldsAlt(p)
  }

  predicate HoldsAlt(p: PartnerPc) {
    p.PInSched? || p.PSchedSignal? || p.PSchedUnlock?
  }

  /** The partner has come first and is on its way to sleep, or sleeps. */
  predicate CameFirst(p: PartnerPc) {
    InSchedule(p) || p.PWait? || p.PAsleep?
  }

  /** The partner takes no part in the current meeting. */
  predicate Outside(p: PartnerPc) {
    p.PIdle? || p.PSem? || p.PLock? || p.PBody? || p.PWoken? || p.PPost? || p.PUnlock?
  }

  /** Where the selecting thread is in the meeting with the partner of a guard. */
  datatype Stage =
    | Before       // it takes no part in the next meeting yet
    | Waits        // it came first and waits
    | Released     // it has been signalled
    | Copies | Signals
    | Leaves

  function StageOf(r: Role): Stage {
    if !r.Use? then Before else
    match r.u
    case UWait => Waits
    case UAsleep => Waits
    case UWoken => Released
    case UCopy => Copies
    case USignal => Signals
    case UPost => Leaves
    case UUnlock => Leaves
    case _ => Before
  }

  /** The guard was returned by select and the selecting thread has not met its partner yet. */
  predicate Promised(r: Role) {
    || r == Kept
    || r == DisBody(true) || r == DisUnlock(true)
    || r == Use(ULock(true)) || r == Use(UBody(true))
  }

  /** The rendezvous on a channel. */
  predicate ChannelOk(g: Guard, st: Stage)
  {
    && !g.ppc.PSem? && !g.ppc.PPost?
    && (!g.bEmpty ==>
         || (CameFirst(g.ppc) && st == Before)
         || (Outside(g.ppc) && st == Waits))
    && (g.bEmpty ==>
         || (Outside(g.ppc) && (st == Before || st == Leaves))
         || (g.ppc.PSignal? && st == Waits)
         || (g.ppc.PWait? && st == Released)
         || (g.ppc.PAsleep? && (st == Released || st == Copies || st == Signals)))
  }

  /** The data on a channel. */
  predicate DataOk(g: Guard, st: Stage)
  {
    var n := |g.sent|;
    && |g.got| <= n && g.got == g.sent[..|g.got|]
    && g.returned == (if g.ppc.PIdle? then n else n - 1)
    && |g.got| == (if Copied(g, st) then n else n - 1)
    && ((CameFirst(g.ppc) || g.ppc.PSignal?) && st != Signals ==> g.pBuff == Some(n - 1))
  }

  /** The last write has been copied by a read. */
  predicate Copied(g: Guard, st: Stage) {
    g.ppc.PIdle? || g.ppc.PWoken? || g.ppc.PUnlock? || (g.ppc.PAsleep? && st == Signals)
  }

  predicate PartnerPermit(p: PartnerPc) {
    !p.PIdle? && !p.PSem? && !p.PUnlock?
  }

  predicate SelectingPermit(enrolled: bool, r: Role) {
    || enrolled
    || r.EnLock? || r.EnBody? || r.DisPost? || r == DisUnlock(true) || r.Kept?
    || (r.Use? && !r.u.USem? && !r.u.UUnlock?)
  }

  function One(b: bool): nat { if b then 1 else 0 }

  predicate BarrierOk(g: Guard, st: Stage)
  {
    && st != Copies
    && 0 <= g.parts <= 2
    && (g.parts == 0 ==> Outside(g.ppc) && (st == Before || st == Released || st == Leaves))
    && (g.parts == 1 ==>
         || (CameFirst(g.ppc) && (st == Before || st == Released || st == Leaves))
         || (Outside(g.ppc) && st == Waits))
    && (g.parts == 2 ==>
         || (g.ppc.PAsleep? && st == Signals)
         || (g.ppc.PSignal? && st == Waits))
  }

  predicate PermitsOk(g: Guard, r: Role) {
    g.sem + One(PartnerPermit(g.ppc)) + One(SelectingPermit(g.enrolled, r)) == 2
  }

  /** The owner of the guard's mutex. */
  predicate LockOk(g: Guard, r: Role) {
    && (g.sync == Partner <==> PartnerHolds(g.ppc))
    && (g.sync == Selecting <==> HoldsGuard(r))
  }

  /** The enrolment of the guard in the running select; an enrolled guard without m_pAlt made enable return true. */
  predicate EnrolOk(g: Guard, r: Role, a: AltState, picked: bool)
  {
    && (r.EnLock? || r.EnBody? || r.DisPost? || r.DisUnlock? || r.Kept? || r.Use? ==> !g.enrolled)
    && (r.EnUnlock? || r.DisLock? || r.DisBody? ==> g.enrolled)
    && (g.pAlt ==> g.enrolled)
    && (r.EnUnlock? ==> (g.pAlt <==> !r.r))
    && (g.enrolled && !g.pAlt ==> Arrived(g) && g.ppc.PAsleep? && (r == EnUnlock(true) || (a == Ready && picked)))
  }

  /** The calls of schedule: an arrival at an enrolled guard makes the alternative ready. */
  predicate SchedOk(g: Guard, r: Role, a: AltState, picked: bool)
  {
    && (InSchedule(g.ppc) ==> g.pAlt && Arrived(g))
    && (g.enrolled && Arrived(g) && !g.ppc.PSched? && !g.ppc.PInSched? ==> a == Ready || r == EnUnlock(true))
    && (g.ppc.PSchedSignal? ==> a == Ready && picked)
    && (a == Ready && picked && g.enrolled ==> Arrived(g) && CameFirst(g.ppc) && !g.ppc.PSched? && !g.ppc.PInSched?)
    && (Promised(r) ==> Arrived(g) && g.ppc.PAsleep?)
    && (r.Use? ==> !r.u.USched? && !r.u.UInSched? && !r.u.USchedUnlock?)
  }

  /** The steps of the other kind of guard are not taken. */
  predicate KindOk(g: Guard, r: Role) {
    if g.kind.Channel? then r != DisPost && (r.Use? ==> !r.u.USem? && !r.u.UPost?)
    else r.Use? ==> !r.u.UCopy?
  }

  predicate MeetOk(g: Guard, r: Role) {
    if g.kind.Channel? then ChannelOk(g, StageOf(r)) else BarrierOk(g, StageOf(r))
  }

  predicate CountOk(g: Guard, r: Role) {
    if g.kind.Channel? then DataOk(g, StageOf(r)) else PermitsOk(g, r)
  }

  predicate GuardOk(g: Guard, r: Role, a: AltState, picked: bool) {
    LockOk(g, r) && EnrolOk(g, r, a, picked) && SchedOk(g, r, a, picked) && KindOk(g, r) && MeetOk(g, r)
        && CountOk(g, r)
  }

  // ---------- The loops of select ----------

  /** Some position in lo..hi holds x. */
  predicate At(gs: seq<nat>, lo: int, hi: int, x: nat) {
    exists j :: 0 <= j < |gs| && lo <= j < hi && gs[j] == x
  }

  /** The positions lo..hi that are enrolled. */
  function Lo(spc: SelPc): int {
    match spc
    case SDis(_, i) => i
    case SDisLock(_, i, _) => i
    case SDisBody(_, i, _) => i
    case SDisPost(_, i) => i + 1
    case SDisUnlock(_, i, _) => i + 1
    case _ => 0
  }

  function Hi(spc: SelPc, len: int): int {
    match spc
    case STop(k) => k
    case SBody(k) => k
    case SEnSem(k) => k
    case SEnLock(k) => k
    case SEnBody(k) => k
    case SEnUnlock(k, _) => k + 1
    case SUnlock(k, _) => k + 1
    case SFix(b) => if b == len then b else b + 1
    case SWLock(b) => b + 1
    case SWBody(b) => b + 1
    case SAsleep(b) => b + 1
    case SWoken(b) => b + 1
    case SWUnlock(b) => b + 1
    case SDis(b, _) => b + 1
    case SDisLock(b, _, _) => b + 1
    case SDisBody(b, _, _) => b + 1
    case SDisPost(b, _) => b + 1
    case SDisUnlock(b, _, _) => b + 1
    case _ => 0
  }

  /** Between the start of select and its return. */
  predicate InSelect(p: SelPc) {
    !p.SIdle? && !p.SStart? && !p.SEnd? && !p.SChosen? && !p.SUse?
  }

  predicate SelHoldsAlt(p: SelPc) {
    || p.SBody? || p.SEnSem? || p.SEnLock? || p.SEnBody? || p.SEnSelf? || p.SEnUnlock?
    || p.SUnlock? || p.SWBody? || p.SWUnlock?
    || (p.SUse? && (p.u.UInSched? || p.u.USchedUnlock?))
  }

  predicate Ranges(s: State) {
    match s.spc
    case STop(k) => 0 <= k <= |s.gs|
    case SBody(k) => 0 <= k < |s.gs|
    case SEnSem(k) => InRange(s, k) && s.g[s.gs[k]].kind.Barrier?
    case SEnLock(k) => 0 <= k < |s.gs|
    case SEnBody(k) => 0 <= k < |s.gs|
    case SEnSelf(_) => false
    case SEnUnlock(k, _) => 0 <= k < |s.gs|
    case SUnlock(k, _) => 0 <= k < |s.gs|
    case SFix(b) => 0 <= b <= |s.gs|
    case SWLock(b) => 0 <= b < |s.gs|
    case SWBody(b) => 0 <= b < |s.gs|
    case SAsleep(b) => b == |s.gs| - 1
    case SWoken(b) => 0 <= b < |s.gs|
    case SWUnlock(b) => 0 <= b < |s.gs|
    case SDis(b, i) => 0 <= i <= b + 1 <= |s.gs|
    case SDisLock(b, i, _) => 0 <= i <= b < |s.gs|
    case SDisBody(b, i, _) => 0 <= i <= b < |s.gs|
    case SDisPost(b, i) => 0 <= i <= b < |s.gs|
    case SDisUnlock(b, i, _) => 0 <= i <= b < |s.gs|
    case SEnd => 0 <= s.selected < |s.gs|
    case SChosen(p) => p == s.selected && 0 <= p < |s.gs|
    case SUse(x, u) => x < |s.g|
    case _ => true
  }

  /** m_state at each point of select; a signal that is due finds the selecting thread asleep. */
  predicate Phase(s: State) {
    && (SignalDue(s) ==> s.spc.SAsleep?)
    && match s.spc
       case STop(_) => s.astate == Enabling || s.astate == Ready
       case SBody(_) => s.astate == Enabling || s.astate == Ready
       case SEnSem(_) => s.astate == Enabling
       case SEnLock(_) => s.astate == Enabling
       case SEnBody(_) => s.astate == Enabling
       case SEnUnlock(_, _) => s.astate == Enabling
       case SUnlock(_, leave) => s.astate == if leave then Ready else Enabling
       case SFix(b) => s.astate == Ready || (s.astate == Enabling && b == |s.gs|)
       case SWLock(b) => s.astate == Ready || (s.astate == Enabling && b == |s.gs| - 1)
       case SWBody(b) => s.astate == Ready || (s.astate == Enabling && b == |s.gs| - 1)
       case SAsleep(_) => s.astate == Waiting || (s.astate == Ready && SignalDue(s))
       case SWoken(_) => s.astate == Ready
       case SWUnlock(_) => s.astate == Ready
       case SDis(_, _) => s.astate == Ready
       case SDisLock(_, _, _) => s.astate == Ready
       case SDisBody(_, _, _) => s.astate == Ready
       case SDisPost(_, _) => s.astate == Ready
       case SDisUnlock(_, _, _) => s.astate == Ready
       case SEnd => s.astate == Ready
       case _ => true
  }

  /** A partner is inside schedule and about to signal. */
  predicate SignalDue(s: State) {
    s.alt.ByPartner? && s.alt.i < |s.g| && s.g[s.alt.i].ppc.PSchedSignal?
  }

  /** Where m_selector is among the guards, once it is set. */
  predicate Chosen(s: State) {
    && s.selector.Some?
    && s.selector.value < |s.g|
    && var x := s.selector.value;
       match s.spc
       case SDis(b, i) =>
         if s.selected == |s.gs| then At(s.gs, i, b + 1, x) else s.selected < i && Holds(s.gs, s.selected, x)
       case SDisLock(b, i, care) => InLoop(s, b, i, care, x)
       case SDisBody(b, i, care) => InLoop(s, b, i, care, x)
       case SDisPost(b, i) => InLoop(s, b, i, false, x)
       case SDisUnlock(b, i, care) => InLoop(s, b, i, care, x)
       case SEnd => Holds(s.gs, s.selected, x)
       case _ => At(s.gs, 0, Hi(s.spc, |s.gs|), x)
  }

  predicate InLoop(s: State, b: int, i: int, care: bool, x: nat) {
    && (care <==> Holds(s.gs, i, x))
    && (care ==> s.selected == i)
    && (!care ==>
          if s.selected == |s.gs| then At(s.gs, i + 1, b + 1, x) else s.selected < i && Holds(s.gs, s.selected, x))
  }

  /** Exactly the guards at positions Lo..Hi are enrolled. */
  predicate EnrolledOk(s: State) {
    && (forall j :: 0 <= j < |s.gs| && Lo(s.spc) <= j < Hi(s.spc, |s.gs|) && s.gs[j] < |s.g| ==> s.g[s.gs[j]].enrolled)
    && (forall x :: 0 <= x < |s.g| && s.g[x].enrolled ==> At(s.gs, Lo(s.spc), Hi(s.spc, |s.gs|), x))
  }

  /** The owner of the alternative's mutex. */
  predicate AltOk(s: State) {
    && (s.alt == BySelecting <==> SelHoldsAlt(s.spc))
    && (s.alt.ByPartner? ==> s.alt.i < |s.g| && HoldsAlt(s.g[s.alt.i].ppc))
    && (forall x :: 0 <= x < |s.g| && HoldsAlt(s.g[x].ppc) ==> s.alt == ByPartner(x))
  }

  predicate SelOk(s: State)
  {
    && (!s.spc.SIdle? && !s.spc.SUse? ==> GoodList(s, s.gs))
    && Ranges(s)
    && Phase(s)
    && ((InSelect(s.spc) || s.spc.SEnd?) && s.astate == Ready ==> Chosen(s))
    && (InSelect(s.spc) || s.spc.SEnd? ==> s.picks == One(s.astate == Ready))
    && (s.spc.SChosen? ==> s.picks == 1)
  }

  predicate GuardsOk(s: State) {
    forall x :: 0 <= x < |s.g| ==> GuardOk(s.g[x], RoleOf(s, x), s.astate, s.selector == Some(x))
  }

  predicate Inv(s: State) {
    SelOk(s) && EnrolledOk(s) && AltOk(s) && GuardsOk(s)
  }

  lemma InitOk(kinds: seq<Kind>, a: AltState)
    ensures Inv(Init(kinds, a))
  {
  }

  // ---------- Steps of a partner ----------

  /** Everything but guard x is as in s, up to a change of m_state that the others do not notice. */
  predicate Elsewhere(s: State, t: State, x: nat) {
    && |t.g| == |s.g|
    && (forall y :: 0 <= y < |s.g| && y != x ==> t.g[y] == s.g[y] && RoleOf(t, y) == RoleOf(s, y))
    && (|| (t.astate == s.astate && t.selector == s.selector)
        || (s.astate == Enabling && t.astate == Waiting && t.selector == s.selector)
        || (s.astate != Ready && t.astate == Ready && t.selector == Some(x)))
  }

  lemma OthersKeep(s: State, t: State, x: nat)
    requires GuardsOk(s) && Elsewhere(s, t, x) && x < |s.g|
    requires GuardOk(t.g[x], RoleOf(t, x), t.astate, t.selector == Some(x))
    ensures GuardsOk(t)
  {
    forall y | 0 <= y < |t.g| ensures GuardOk(t.g[y], RoleOf(t, y), t.astate, t.selector == Some(y)) {
      if y != x {
        assert GuardOk(s.g[y], RoleOf(s, y), s.astate, s.selector == Some(y));
      }
    }
  }

  /** The partner of g can take its next step, as far as g itself is concerned. */
  predicate CanMove(g: Guard, a: AltState) {
    && !g.ppc.PIdle? && !g.ppc.PAsleep?
    && (g.ppc.PLock? || g.ppc.PWoken? ==> g.sync == Free)
    && (g.ppc.PSem? ==> g.sem > 0)
    && (a == Inactive ==> !g.enrolled)
  }

  /** The partner's next step picks its guard. */
  predicate Picks(g: Guard, a: AltState) {
    g.ppc.PInSched? && (a == Enabling || a == Waiting)
  }

  /** The role at the guard after the partner's next step: its signal wakes the selecting thread. */
  function RoleAfter(g: Guard, r: Role): Role {
    if g.ppc.PSignal? && r == Use(UAsleep) then Use(UWoken) else r
  }

  /** What a step of the partner does to the fields that other threads see. */
  lemma MoveSummary(g: Guard, a: AltState)
    ensures var h := PartnerMove(g, a);
            && h.kind == g.kind && h.enrolled == g.enrolled && h.pAlt == g.pAlt
            && h.sent == g.sent && h.got == g.got
  {
  }

  /** A partner's step moves a permit between the semaphore and the partner. */
  lemma MovePermits(g: Guard, a: AltState)
    requires g.kind.Barrier? && CanMove(g, a)
    ensures var h := PartnerMove(g, a);
            h.sem + One(PartnerPermit(h.ppc)) == g.sem + One(PartnerPermit(g.ppc))
  {
  }

  lemma MoveKeepsLock(g: Guard, r: Role, a: AltState, picked: bool)
    requires CanMove(g, a)
    requires LockOk(g, r)
    ensures LockOk(PartnerMove(g, a), RoleAfter(g, r))
  {
  }

  lemma MoveKeepsEnrol(g: Guard, r: Role, a: AltState, picked: bool)
    requires CanMove(g, a)
    requires LockOk(g, r) && EnrolOk(g, r, a, picked) && SchedOk(g, r, a, picked) && MeetOk(g, r)
    ensures EnrolOk(PartnerMove(g, a), RoleAfter(g, r), if Picks(g, a) then Ready else a, picked || Picks(g, a))
  {
  }

  lemma MoveKeepsSched(g: Guard, r: Role, a: AltState, picked: bool)
    requires CanMove(g, a)
    requires EnrolOk(g, r, a, picked) && SchedOk(g, r, a, picked) && MeetOk(g, r)
    ensures SchedOk(PartnerMove(g, a), RoleAfter(g, r), if Picks(g, a) then Ready else a, picked || Picks(g, a))
  {
  }

  lemma MoveKeepsChannel(g: Guard, r: Role, a: AltState, picked: bool)
    requires CanMove(g, a)
    requires LockOk(g, r) && SchedOk(g, r, a, picked) && KindOk(g, r) && MeetOk(g, r) && g.kind.Channel?
    ensures KindOk(PartnerMove(g, a), RoleAfter(g, r)) && MeetOk(PartnerMove(g, a), RoleAfter(g, r))
  {
  }

  lemma MoveMeetsBarrier(g: Guard, r: Role, a: AltState, picked: bool)
    requires CanMove(g, a)
    requires LockOk(g, r) && SchedOk(g, r, a, picked) && BarrierOk(g, StageOf(r)) && g.kind.Barrier?
    ensures BarrierOk(PartnerMove(g, a), StageOf(RoleAfter(g, r)))
  {
  }

  lemma MoveKeepsBarrier(g: Guard, r: Role, a: AltState, picked: bool)
    requires CanMove(g, a)
    requires LockOk(g, r) && SchedOk(g, r, a, picked) && KindOk(g, r) && MeetOk(g, r) && g.kind.Barrier?
    ensures KindOk(PartnerMove(g, a), RoleAfter(g, r)) && MeetOk(PartnerMove(g, a), RoleAfter(g, r))
  {
    MoveMeetsBarrier(g, r, a, picked);
    MoveSummary(g, a);
    hide PartnerMove, BarrierOk, LockOk, SchedOk;
  }

  lemma MoveKeepsData(g: Guard, r: Role, a: AltState, picked: bool)
    requires CanMove(g, a)
    requires g.kind.Channel? && KindOk(g, r) && MeetOk(g, r) && CountOk(g, r)
    ensures CountOk(PartnerMove(g, a), RoleAfter(g, r))
  {
    MoveSummary(g, a);
    var h := PartnerMove(g, a);
    assert h.returned == (if h.ppc.PIdle? then |g.sent| else |g.sent| - 1);
    assert Copied(h, StageOf(RoleAfter(g, r))) == Copied(g, StageOf(r));
  }

  lemma MoveKeepsPermits(g: Guard, r: Role, a: AltState, picked: bool)
    requires CanMove(g, a)
    requires g.kind.Barrier? && CountOk(g, r)
    ensures CountOk(PartnerMove(g, a), RoleAfter(g, r))
  {
    MoveSummary(g, a);
    MovePermits(g, a);
    assert SelectingPermit(g.enrolled, RoleAfter(g, r)) == SelectingPermit(g.enrolled, r);
    hide PartnerMove, SelectingPermit, RoleAfter, CanMove;
  }

  lemma MoveKeeps(g: Guard, r: Role, a: AltState, picked: bool)
    requires GuardOk(g, r, a, picked) && CanMove(g, a)
    ensures GuardOk(PartnerMove(g, a), RoleAfter(g, r), if Picks(g, a) then Ready else a, picked || Picks(g, a))
  {
    hide LockOk, EnrolOk, SchedOk, KindOk, MeetOk, CountOk, CanMove, PartnerMove, RoleAfter, Picks;
    MoveKeepsLock(g, r, a, picked);
    MoveKeepsEnrol(g, r, a, picked);
    MoveKeepsSched(g, r, a, picked);
    if g.kind.Channel? {
      MoveKeepsChannel(g, r, a, picked);
      MoveKeepsData(g, r, a, picked);
    } else {
      MoveKeepsBarrier(g, r, a, picked);
      MoveKeepsPermits(g, r, a, picked);
    }
  }

  lemma EnrolledMeansActive(s: State, x: nat)
    requires SelOk(s) && EnrolledOk(s) && x < |s.g| && s.g[x].enrolled
    ensures InSelect(s.spc) && s.astate != Inactive
  {
    assert At(s.gs, Lo(s.spc), Hi(s.spc, |s.gs|), x);
  }

  lemma PartnerCanMove(s: State, i: nat)
    requires Inv(s) && PartnerCan(s, i)
    ensures CanMove(s.g[i], s.astate)
  {
    hide GuardOk;
    if s.g[i].enrolled { EnrolledMeansActive(s, i); }
  }

  lemma WakingLeavesRoles(spc: SelPc, gs: seq<nat>, selected: int, i: nat, y: nat)
    requires y != i
    ensures spc.SAsleep? ==> RoleAt(SWoken(spc.b), gs, selected, y) == RoleAt(spc, gs, selected, y)
    ensures spc == SUse(i, UAsleep) ==> RoleAt(SUse(i, UWoken), gs, selected, y) == RoleAt(spc, gs, selected, y)
  {
  }

  lemma PartnerLeavesOthers(s: State, i: nat)
    requires PartnerCan(s, i)
    ensures Elsewhere(s, PartnerStep(s, i).value, i)
  {
    hide PartnerMove, RoleAt;
    var t := PartnerStep(s, i).value;
    forall y: nat | y != i ensures RoleOf(t, y) == RoleOf(s, y) {
      WakingLeavesRoles(s.spc, s.gs, s.selected, i, y);
    }
  }

  lemma PartnerRole(s: State, i: nat)
    requires PartnerCan(s, i)
    ensures RoleOf(PartnerStep(s, i).value, i) == RoleAfter(s.g[i], RoleOf(s, i))
  {
    hide PartnerMove;
  }

  lemma PartnerKeepsGuards(s: State, i: nat)
    requires Inv(s) && PartnerCan(s, i)
    ensures GuardsOk(PartnerStep(s, i).value)
  {
    hide GuardOk, CanMove, RoleOf, PartnerMove, RoleAfter;
    PartnerCanMove(s, i);
    MoveKeeps(s.g[i], RoleOf(s, i), s.astate, s.selector == Some(i));
    PartnerRole(s, i);
    PartnerLeavesOthers(s, i);
    OthersKeep(s, PartnerStep(s, i).value, i);
  }

  lemma PartnerKeepsEnrolled(s: State, i: nat)
    requires EnrolledOk(s) && PartnerCan(s, i)
    requires CanMove(s.g[i], s.astate)
    ensures EnrolledOk(PartnerStep(s, i).value)
  {
    var t := PartnerStep(s, i).value;
    MoveSummary(s.g[i], s.astate);
    assert t.gs == s.gs && Lo(t.spc) == Lo(s.spc) && Hi(t.spc, |t.gs|) == Hi(s.spc, |s.gs|);
    hide PartnerMove, Lo, Hi;
  }

  lemma PartnerKeepsAlt(s: State, i: nat)
    requires AltOk(s) && PartnerCan(s, i)
    ensures AltOk(PartnerStep(s, i).value)
  {
  }

  lemma PartnerKeepsRanges(s: State, i: nat)
    requires SelOk(s) && PartnerCan(s, i)
    ensures var t := PartnerStep(s, i).value;
            Ranges(t) && (!t.spc.SIdle? && !t.spc.SUse? ==> GoodList(t, t.gs))
  {
    hide Phase, Chosen;
    MoveSummary(s.g[i], s.astate);
    hide PartnerMove;
  }

  lemma PartnerKeepsPhase(s: State, i: nat)
    requires SelOk(s) && AltOk(s) && PartnerCan(s, i)
    requires s.g[i].ppc.PSchedSignal? ==> s.astate == Ready
    requires s.g[i].ppc.PInSched? ==> InSelect(s.spc)
    ensures Phase(PartnerStep(s, i).value)
  {
    hide Ranges, Chosen, GoodList;
  }

  lemma PartnerKeepsChosen(s: State, i: nat)
    requires SelOk(s) && AltOk(s) && EnrolledOk(s) && PartnerCan(s, i)
    requires s.g[i].ppc.PInSched? ==> s.g[i].enrolled
    ensures var t := PartnerStep(s, i).value;
            && ((InSelect(t.spc) || t.spc.SEnd?) && t.astate == Ready ==> Chosen(t))
            && (InSelect(t.spc) || t.spc.SEnd? ==> t.picks == One(t.astate == Ready))
            && (t.spc.SChosen? ==> t.picks == 1)
  {
    hide PartnerMove, Ranges, GoodList;
  }

  lemma PartnerKeeps(s: State, i: nat)
    requires Inv(s) && PartnerCan(s, i)
    ensures Inv(PartnerStep(s, i).value)
  {
    assert GuardOk(s.g[i], RoleOf(s, i), s.astate, s.selector == Some(i));
    hide PartnerMove, RoleOf, CanMove, Phase, Chosen, Ranges, GoodList;
    PartnerCanMove(s, i);
    PartnerKeepsGuards(s, i);
    PartnerKeepsEnrolled(s, i);
    PartnerKeepsAlt(s, i);
    PartnerKeepsRanges(s, i);
    if s.g[i].ppc.PInSched? { EnrolledMeansActive(s, i); }
    PartnerKeepsPhase(s, i);
    PartnerKeepsChosen(s, i);
  }

  // ---------- Calls ----------

  /** Changes of the guards that select does not notice. */
  predicate Unnoticed(s: State, t: State) {
    && t == s.(g := t.g) && |t.g| == |s.g|
    && forall y :: 0 <= y < |s.g| ==>
         && t.g[y].kind == s.g[y].kind && t.g[y].enrolled == s.g[y].enrolled
         && t.g[y].ppc.PSchedSignal? == s.g[y].ppc.PSchedSignal? && HoldsAlt(t.g[y].ppc) == HoldsAlt(s.g[y].ppc)
  }

  lemma UnnoticedKeepsSel(s: State, t: State)
    requires SelOk(s) && Unnoticed(s, t)
    ensures SelOk(t)
  {
    hide At, Hi;
  }

  lemma UnnoticedKeepsRest(s: State, t: State)
    requires EnrolledOk(s) && AltOk(s) && Unnoticed(s, t)
    ensures EnrolledOk(t) && AltOk(t)
  {
    hide At, Lo, Hi;
  }

  lemma PartnerCallKeeps(s: State, i: nat, v: int)
    requires Inv(s) && PartnerCall(s, i, v).Some?
    ensures Inv(PartnerCall(s, i, v).value)
  {
    hide GuardOk, RoleAt, SelOk, EnrolledOk, AltOk;
    UnnoticedKeepsSel(s, PartnerCall(s, i, v).value);
    UnnoticedKeepsRest(s, PartnerCall(s, i, v).value);
    CallKeepsGuard(s.g[i], RoleOf(s, i), s.astate, s.selector == Some(i), v);
    OthersKeep(s, PartnerCall(s, i, v).value, i);
  }

  lemma CallKeepsGuard(g: Guard, r: Role, a: AltState, picked: bool, v: int)
    requires GuardOk(g, r, a, picked) && g.ppc.PIdle?
    ensures GuardOk(if g.kind.Channel? then g.(sent := g.sent + [v], ppc := PLock) else g.(ppc := PSem), r, a, picked)
  {
  }

  // ---------- Steps of the selecting thread at one guard ----------

  lemma EnSemKeeps(g: Guard, a: AltState, picked: bool)
    requires GuardOk(g, Away, a, picked) && g.kind.Barrier? && !g.enrolled && g.sem > 0
    ensures GuardOk(g.(sem := g.sem - 1), EnLock, a, picked)
  {
  }

  lemma EnLockKeeps(g: Guard, a: AltState, picked: bool)
    requires GuardOk(g, EnLock, a, picked) && g.sync == Free
    ensures GuardOk(g.(sync := Selecting), EnBody, a, picked)
  {
  }

  lemma EnBodyKeeps(g: Guard, picked: bool)
    requires GuardOk(g, EnBody, Enabling, picked)
    ensures !EnableCallsSchedule(g)
    ensures var (h, r) := EnableBody(g);
            GuardOk(h.(enrolled := true), EnUnlock(r), Enabling, picked)
  {
  }

  lemma EnUnlockKeeps(g: Guard, r: bool, picked: bool)
    requires GuardOk(g, EnUnlock(r), Enabling, picked)
    ensures GuardOk(g.(sync := Free), Away, if r then Ready else Enabling, picked || r)
  {
  }

  lemma DisLockKeeps(g: Guard, care: bool)
    requires GuardOk(g, DisLock(care), Ready, care) && g.sync == Free
    ensures GuardOk(g.(sync := Selecting), DisBody(care), Ready, care)
  {
  }

  lemma DisBodyKeeps(g: Guard, care: bool)
    requires GuardOk(g, DisBody(care), Ready, care)
    ensures GuardOk(DisableBody(g).(enrolled := false),
                    if g.kind.Barrier? && !care then DisPost else DisUnlock(care), Ready, care)
  {
  }

  lemma DisPostKeeps(g: Guard)
    requires GuardOk(g, DisPost, Ready, false)
    ensures GuardOk(g.(sem := g.sem + 1), DisUnlock(false), Ready, false)
  {
  }

  lemma DisUnlockKeeps(g: Guard, care: bool)
    requires GuardOk(g, DisUnlock(care), Ready, care)
    ensures GuardOk(g.(sync := Free), if care then Kept else Away, Ready, care)
  {
  }

  /** The selecting thread may take its next step at g. */
  predicate CanUse(g: Guard, u: UsePc) {
    && !u.UAsleep?
    && (u.USem? ==> g.sem > 0)
    && (u.ULock? || u.UWoken? ==> g.sync == Free)
  }

  function UseRole(g: Guard, u: UsePc): Role {
    if UseNext(g, u).None? then Away else Use(UseNext(g, u).value)
  }

  lemma UseKeepsLock(g: Guard, u: UsePc, a: AltState, picked: bool)
    requires CanUse(g, u)
    requires LockOk(g, Use(u))
    ensures LockOk(UseMove(g, u), UseRole(g, u))
  {
  }

  lemma UseKeepsEnrol(g: Guard, u: UsePc, a: AltState, picked: bool)
    requires CanUse(g, u)
    requires GuardOk(g, Use(u), a, picked)
    ensures EnrolOk(UseMove(g, u), UseRole(g, u), a, picked) && SchedOk(UseMove(g, u), UseRole(g, u), a, picked)
  {
  }

  lemma UseKeepsChannel(g: Guard, u: UsePc, a: AltState, picked: bool)
    requires CanUse(g, u)
    requires GuardOk(g, Use(u), a, picked) && g.kind.Channel?
    ensures KindOk(UseMove(g, u), UseRole(g, u)) && MeetOk(UseMove(g, u), UseRole(g, u))
  {
  }

  lemma UseKeepsBarrier(g: Guard, u: UsePc, a: AltState, picked: bool)
    requires CanUse(g, u)
    requires GuardOk(g, Use(u), a, picked) && g.kind.Barrier?
    ensures KindOk(UseMove(g, u), UseRole(g, u)) && MeetOk(UseMove(g, u), UseRole(g, u))
  {
  }

  lemma UseKeepsData(g: Guard, u: UsePc, a: AltState, picked: bool)
    requires CanUse(g, u)
    requires GuardOk(g, Use(u), a, picked) && g.kind.Channel?
    ensures CountOk(UseMove(g, u), UseRole(g, u))
  {
  }

  lemma UseKeepsPermits(g: Guard, u: UsePc, a: AltState, picked: bool)
    requires CanUse(g, u)
    requires GuardOk(g, Use(u), a, picked) && g.kind.Barrier?
    ensures CountOk(UseMove(g, u), UseRole(g, u))
  {
  }

  lemma UseKeeps(g: Guard, u: UsePc, a: AltState, picked: bool)
    requires GuardOk(g, Use(u), a, picked) && CanUse(g, u)
    ensures GuardOk(UseMove(g, u), UseRole(g, u), a, picked)
  {
    hide LockOk, EnrolOk, SchedOk, KindOk, MeetOk, CountOk, CanUse, UseMove, UseRole;
    UseKeepsLock(g, u, a, picked);
    UseKeepsEnrol(g, u, a, picked);
    assert UseMove(g, u).kind == g.kind by { UseKind(g, u); }
    if g.kind.Channel? {
      UseKeepsChannel(g, u, a, picked);
      UseKeepsData(g, u, a, picked);
    } else {
      UseKeepsBarrier(g, u, a, picked);
      UseKeepsPermits(g, u, a, picked);
    }
  }

  lemma UseKind(g: Guard, u: UsePc)
    ensures UseMove(g, u).kind == g.kind && UseMove(g, u).enrolled == g.enrolled
    ensures HoldsAlt(UseMove(g, u).ppc) == HoldsAlt(g.ppc)
  {
  }

  lemma UseStarts(g: Guard, a: AltState, picked: bool)
    requires GuardOk(g, Away, a, picked) && !g.enrolled
    ensures GuardOk(g, Use(if g.kind.Channel? then ULock(false) else USem), a, picked)
  {
  }

  lemma PromiseUsed(g: Guard, a: AltState, picked: bool)
    requires GuardOk(g, Kept, a, picked)
    ensures GuardOk(g, Use(ULock(true)), a, picked)
  {
  }
}
