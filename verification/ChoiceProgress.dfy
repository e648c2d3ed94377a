/**
 The choice protocol never blocks for good: mutexes are never waited for in a cycle, the
 steps inside calls are finite in number, and when none is left every thread that still
 waits is waiting for a partner that is outside its call.
 */
module ChoiceProgress {
  import opened Wrappers
  import opened Sums
  import opened Guards
  import opened Choice
  import opened ChoiceInvariant
  import opened ChoiceSteps
  import opened ChoiceTheorems

  // ---------- No cycle of threads waiting for mutexes ----------

  datatype Thread = Chooser | PartnerOf(i: nat)

  datatype Mutex = OfAlternative | OfGuard(x: nat)

  /** The mutex that the thread is about to lock. */
  function Wants(s: State, t: Thread): Option<Mutex> {
    match t
    case PartnerOf(i) =>
      if i >= |s.g| then None
      else if s.g[i].ppc.PLock? || s.g[i].ppc.PWoken? then Some(OfGuard(i))
      else if s.g[i].ppc.PSched? then Some(OfAlternative)
      else None
    case Chooser =>
      match s.spc
      case STop(k) => if k < |s.gs| then Some(OfAlternative) else None
      case SEnLock(k) => if InRange(s, k) then Some(OfGuard(s.gs[k])) else None
      case SEnSelf(_) => Some(OfAlternative)
      case SWLock(_) => Some(OfAlternative)
      case SWoken(_) => Some(OfAlternative)
      case SDisLock(_, i, _) => if InRange(s, i) then Some(OfGuard(s.gs[i])) else None
      case SUse(x, u) =>
        if u.ULock? || u.UWoken? then Some(OfGuard(x)) else if u.USched? then Some(OfAlternative) else None
      case _ => None
  }

  function HeldBy(s: State, m: Mutex): Option<Thread> {
    match m
    case OfAlternative =>
      (match s.alt
       case AltFree => None
       case BySelecting => Some(Chooser)
       case ByPartner(i) => Some(PartnerOf(i)))
    case OfGuard(x) =>
      if x >= |s.g| then None else
      match s.g[x].sync
      case Free => None
      case Selecting => Some(Chooser)
      case Partner => Some(PartnerOf(x))
  }

  predicate WaitsFor(s: State, t: Thread, u: Thread) {
    Wants(s, t).Some? && HeldBy(s, Wants(s, t).value) == Some(u)
  }

  function Rank(s: State, t: Thread): nat {
    match t
    case Chooser => if SelHoldsAlt(s.spc) then 1 else 3
    case PartnerOf(i) =>
      if i >= |s.g| then 0
      else if s.g[i].ppc.PSched? then 2
      else if s.g[i].ppc.PLock? || s.g[i].ppc.PWoken? then 4
      else 0
  }

  lemma PartnerWaitLowersRank(s: State, i: nat, u: Thread)
    requires Reachable(s) && WaitsFor(s, PartnerOf(i), u)
    ensures Rank(s, u) < Rank(s, PartnerOf(i))
  {
    assert AltOk(s) by { ReachableInv(s); }
    AtGuard(s, i);
    hide Reachable;
  }

  lemma ChooserWaitLowersRank(s: State, u: Thread)
    requires Reachable(s) && WaitsFor(s, Chooser, u)
    ensures Rank(s, u) < Rank(s, Chooser)
  {
    assert AltOk(s) && Ranges(s) by { ReachableInv(s); }
    var m := Wants(s, Chooser).value;
    if m.OfGuard? { AtGuard(s, m.x); }
    hide Reachable;
  }

  lemma WaitingLowersRank(s: State, t: Thread, u: Thread)
    requires Reachable(s) && WaitsFor(s, t, u)
    ensures Rank(s, u) < Rank(s, t)
  {
    hide Reachable, WaitsFor, Rank;
    match t
    case PartnerOf(i) => PartnerWaitLowersRank(s, i, u);
    case Chooser => ChooserWaitLowersRank(s, u);
  }

  /** Each thread of p waits for a mutex that the next one holds. */
  predicate WaitChain(s: State, p: seq<Thread>) {
    forall i :: 0 <= i < |p| - 1 ==> WaitsFor(s, p[i], p[i + 1])
  }

  lemma {:induction false} ChainLowersRank(s: State, p: seq<Thread>)
    requires Reachable(s) && |p| >= 2 && WaitChain(s, p)
    ensures Rank(s, p[|p| - 1]) < Rank(s, p[0])
    decreases |p|
  {
    hide Rank, WaitsFor;
    WaitingLowersRank(s, p[0], p[1]);
    if |p| > 2 {
      ChainLowersRank(s, p[1..]);
    }
  }

  /** No cycle of threads, of any length, waits for mutexes held by one another. */
  lemma NoMutexCycle(s: State, p: seq<Thread>)
    requires Reachable(s) && |p| >= 2 && WaitChain(s, p)
    ensures p[0] != p[|p| - 1]
  {
    ChainLowersRank(s, p);
  }

  // ---------- A measure of the steps left inside calls ----------

  function PartnerRank(g: Guard): nat {
    match g.ppc
    case PIdle => 0
    case PUnlock => 1
    case PPost => 2
    case PWoken => 3
    case PAsleep => 4
    case PWait => 5
    case PSignal => 6
    case PSchedUnlock => 7
    case PSchedSignal => 8
    case PInSched => 9
    case PSched => 10
    case PBody => 11
    case PLock => 12
    case PSem => 13
  }

  function UseRank(u: UsePc): nat {
    match u
    case UUnlock => 1
    case UPost => 2
    case USignal => 3
    case UCopy => 4
    case UWoken => 5
    case UAsleep => 6
    case UWait => 7
    case USchedUnlock => 8
    case UInSched => 9
    case USched => 10
    case UBody(_) => 11
    case ULock(_) => 12
    case USem => 13
  }

  function SelectRank(p: SelPc, len: int): int {
    var d := 16 + 5 * len;
    match p
    case SIdle => 0
    case SUse(_, u) => UseRank(u)
    case SChosen(_) => 14
    case SEnd => 15
    case SDis(b, i) => 16 + 5 * (b + 1 - i)
    case SDisLock(b, i, _) => 15 + 5 * (b + 1 - i)
    case SDisBody(b, i, _) => 14 + 5 * (b + 1 - i)
    case SDisPost(b, i) => 13 + 5 * (b + 1 - i)
    case SDisUnlock(b, i, _) => 12 + 5 * (b + 1 - i)
    case SWUnlock(_) => d + 1
    case SWoken(_) => d + 2
    case SAsleep(_) => d + 3
    case SWBody(_) => d + 4
    case SWLock(_) => d + 5
    case SFix(_) => d + 6
    case SUnlock(k, leave) => if leave then d + 7 else d + 8 + 8 * (len - k - 1)
    case STop(k) => d + 7 + 8 * (len - k)
    case SBody(k) => d + 6 + 8 * (len - k)
    case SEnSem(k) => d + 5 + 8 * (len - k)
    case SEnLock(k) => d + 4 + 8 * (len - k)
    case SEnBody(k) => d + 3 + 8 * (len - k)
    case SEnSelf(_) => 0
    case SEnUnlock(k, _) => d + 2 + 8 * (len - k)
    case SStart => d + 8 + 8 * len
  }

  function StepsLeft(s: State): int {
    SelectRank(s.spc, |s.gs|) + Sum(s.g, PartnerRank)
  }

  lemma RankNonNegative(s: State)
    requires SelOk(s)
    ensures StepsLeft(s) >= 0
  {
  }

  lemma BodyLowersRank(g: Guard, a: AltState)
    requires g.ppc.PBody?
    ensures PartnerRank(PartnerMove(g, a)) < PartnerRank(g)
  {
  }

  lemma MoveLowersRank(g: Guard, a: AltState)
    requires !g.ppc.PIdle? && !g.ppc.PAsleep?
    ensures PartnerRank(PartnerMove(g, a)) < PartnerRank(g)
  {
    if g.ppc.PBody? { BodyLowersRank(g, a); }
    hide WriteBody, SyncBody;
  }

  /** A partner's step does not raise the rank of the selecting thread. */
  lemma PartnerRanks(s: State, i: nat)
    requires PartnerCan(s, i)
    ensures var t := PartnerStep(s, i).value;
            && t.g == s.g[i := PartnerMove(s.g[i], s.astate)] && t.gs == s.gs
            && SelectRank(t.spc, |t.gs|) <= SelectRank(s.spc, |s.gs|)
  {
    hide PartnerMove;
  }

  lemma PartnerLowersSteps(s: State, i: nat)
    requires PartnerCan(s, i)
    ensures StepsLeft(PartnerStep(s, i).value) < StepsLeft(s)
  {
    PartnerRanks(s, i);
    MoveLowersRank(s.g[i], s.astate);
    hide PartnerMove, PartnerStep, SelectRank, PartnerRank;
    SumUpdate(s.g, PartnerRank, i, PartnerMove(s.g[i], s.astate));
  }

  lemma UseNextRank(g: Guard, u: UsePc)
    ensures !u.UAsleep? ==> UseNext(g, u).None? || UseRank(UseNext(g, u).value) < UseRank(u)
  {
  }

  lemma UseMoveRank(g: Guard, u: UsePc)
    ensures PartnerRank(UseMove(g, u)) <= PartnerRank(g)
    ensures !u.UAsleep? ==> UseNext(g, u).None? || UseRank(UseNext(g, u).value) < UseRank(u)
  {
    UseNextRank(g, u);
    hide UseNext, UseRank;
  }

  /** select changes no partner's program counter. */
  lemma SelectKeepsPartners(s: State)
    requires SelectStep(s).Some? && !s.spc.SUse?
    ensures Sum(SelectStep(s).value.g, PartnerRank) == Sum(s.g, PartnerRank)
  {
    var t := SelectStep(s).value;
    if Enables(s.spc) {
      var x := s.gs[s.spc.k];
      assert t.g == s.g[x := t.g[x]] && PartnerRank(t.g[x]) == PartnerRank(s.g[x]);
      SumUpdate(s.g, PartnerRank, x, t.g[x]);
    } else if Disables(s.spc) {
      var x := s.gs[s.spc.i];
      assert t.g == s.g[x := t.g[x]] && PartnerRank(t.g[x]) == PartnerRank(s.g[x]);
      SumUpdate(s.g, PartnerRank, x, t.g[x]);
    }
  }

  lemma EnableLowersRank(s: State)
    requires Ranges(s) && Enables(s.spc) && EnableStep(s).Some?
    ensures SelectRank(EnableStep(s).value.spc, |s.gs|) < SelectRank(s.spc, |s.gs|) && EnableStep(s).value.gs == s.gs
  {
    hide EnableBody;
  }

  lemma DisableLowersRank(s: State)
    requires Disables(s.spc) && DisableStep(s).Some?
    ensures SelectRank(DisableStep(s).value.spc, |s.gs|) < SelectRank(s.spc, |s.gs|) && DisableStep(s).value.gs == s.gs
  {
    hide DisableBody;
  }

  lemma SelectLowersRank(s: State)
    requires SelOk(s) && SelectStep(s).Some? && !s.spc.SUse?
    ensures SelectRank(SelectStep(s).value.spc, |SelectStep(s).value.gs|) < SelectRank(s.spc, |s.gs|)
  {
    if Enables(s.spc) {
      hide Chosen, Phase, SelectRank, EnableStep;
      EnableLowersRank(s);
    } else if Disables(s.spc) {
      hide Chosen, Phase, SelectRank, DisableStep;
      DisableLowersRank(s);
    } else {
      hide Chosen, EnableStep, DisableStep, UseStep;
    }
  }

  /** Every step inside a call lowers the number of steps left. */
  lemma InternalLowersSteps(s: State, l: Label)
    requires Reachable(s) && Internal(l) && Next(s, l).Some?
    ensures 0 <= StepsLeft(Next(s, l).value) < StepsLeft(s)
  {
    ReachableInv(s);
    NextKeeps(s, l);
    hide SelectRank, GuardsOk, AltOk, EnrolledOk;
    RankNonNegative(Next(s, l).value);
    if l.Step? {
      PartnerLowersSteps(s, l.i);
    } else if s.spc.SUse? {
      var x, u := s.spc.x, s.spc.u;
      UseLowersSteps(s, x, u);
    } else {
      SelectKeepsPartners(s);
      SelectLowersRank(s);
    }
  }

  lemma UseLowersSteps(s: State, x: nat, u: UsePc)
    requires s.spc == SUse(x, u) && UseCan(s, x, u)
    ensures StepsLeft(UseStep(s, x, u).value) < StepsLeft(s)
  {
    hide UseMove, UseNext;
    UseMoveRank(s.g[x], u);
    SumUpdate(s.g, PartnerRank, x, UseMove(s.g[x], u));
  }

  /** A run without new calls is no longer than the number of steps left. */
  lemma {:induction false} InternalRunsAreShort(s: State, ls: seq<Label>)
    requires Reachable(s) && Run(s, ls).Some?
    requires forall i :: 0 <= i < |ls| ==> Internal(ls[i])
    ensures |ls| <= StepsLeft(s)
    decreases |ls|
  {
    ReachableInv(s);
    RankNonNegative(s);
    hide StepsLeft, Next;
    if ls != [] {
      var t := Next(s, ls[0]).value;
      assert Run(s, [ls[0]]) == Some(t) by { assert Run(t, [ls[0]][1..]) == Some(t); }
      ReachableRun(s, [ls[0]]);
      InternalLowersSteps(s, ls[0]);
      InternalRunsAreShort(t, ls[1..]);
    }
  }

  // ---------- Where runs end ----------

  /** No thread can take a step inside a call. */
  ghost predicate Stuck(s: State) {
    SelectStep(s).None? && forall i: nat :: !PartnerCan(s, i)
  }

  /**
   The only threads inside calls are asleep: the selecting thread waits only for partners that are
   outside their calls, and a partner waits only at a guard that the selecting thread does not ask for.
   */
  predicate Settled(s: State) {
    && (s.spc.SIdle? || s.spc.SAsleep? || (s.spc.SUse? && s.spc.u.UAsleep?))
    && s.alt == AltFree
    && (forall x :: 0 <= x < |s.g| ==> s.g[x].sync == Free && (s.g[x].ppc.PIdle? || s.g[x].ppc.PAsleep?))
    && (s.spc.SUse? ==> s.spc.x < |s.g| && s.g[s.spc.x].ppc.PIdle?)
    && (s.spc.SAsleep? ==> forall k :: 0 <= k < |s.gs| ==> InRange(s, k) && s.g[s.gs[k]].ppc.PIdle?)
  }

  lemma StuckFreesAlternative(s: State)
    requires Reachable(s) && Stuck(s)
    ensures s.alt == AltFree
  {
    ReachableInv(s);
    if s.alt.ByPartner? {
      assert PartnerCan(s, s.alt.i);
    } else if s.alt == BySelecting {
      if s.spc.SEnSem? { PermitsConserved(s, s.gs[s.spc.k]); }
      if Enables(s.spc) {
        var x := s.gs[s.spc.k];
        AtGuard(s, x);
        var blocked := !PartnerCan(s, x);
      }
    }
  }

  lemma StuckFreesFromPartner(s: State, x: nat)
    requires s.alt == AltFree && !PartnerCan(s, x) && x < |s.g|
    requires LockOk(s.g[x], RoleOf(s, x))
    ensures s.g[x].sync != Partner
  {
    hide HoldsGuard, RoleOf;
  }

  lemma StuckFreesFromSelecting(s: State, x: nat)
    requires SelOk(s) && SelectStep(s).None? && x < |s.g| && (s.spc.SUse? ==> !s.spc.u.USched?)
    requires LockOk(s.g[x], RoleOf(s, x))
    ensures s.g[x].sync != Selecting
  {
    hide Chosen, Phase, PartnerHolds;
  }

  lemma StuckFreesGuard(s: State, x: nat)
    requires Reachable(s) && Stuck(s) && x < |s.g|
    ensures s.g[x].sync == Free
  {
    StuckFreesAlternative(s);
    ReachableInv(s);
    AtGuard(s, x);
    assert s.spc.SUse? ==> !s.spc.u.USched? by { if s.spc.SUse? { AtGuard(s, s.spc.x); } }
    assert !PartnerCan(s, x) && SelectStep(s).None? && SelOk(s);
    hide SelOk, EnrolledOk, AltOk, GuardsOk, PartnerCan, SelectStep, LockOk, EnrolOk, SchedOk, KindOk, MeetOk, CountOk;
    StuckFreesFromPartner(s, x);
    StuckFreesFromSelecting(s, x);
  }

  lemma StuckPartner(s: State, x: nat)
    requires Reachable(s) && Stuck(s) && x < |s.g|
    ensures s.g[x].ppc.PIdle? || s.g[x].ppc.PAsleep?
  {
    StuckFreesAlternative(s);
    StuckFreesGuard(s, x);
    AtGuard(s, x);
    assert !PartnerCan(s, x);
  }

  lemma StuckSelecting(s: State)
    requires Reachable(s) && Stuck(s)
    ensures s.spc.SIdle? || s.spc.SAsleep? || (s.spc.SUse? && s.spc.u.UAsleep?)
  {
    StuckFreesAlternative(s);
    ReachableInv(s);
    if s.spc.SDisLock? { StuckFreesGuard(s, s.gs[s.spc.i]); }
    if s.spc.SUse? {
      StuckFreesGuard(s, s.spc.x);
      AtGuard(s, s.spc.x);
    }
    hide EnrolledOk, GuardsOk, Chosen;
  }

  /** When nothing can move inside calls, every meeting that was possible has taken place. */
  lemma StuckIsSettled(s: State)
    requires Reachable(s) && Stuck(s)
    ensures Settled(s)
  {
    StuckFreesAlternative(s);
    StuckSelecting(s);
    ReachableInv(s);
    forall x | 0 <= x < |s.g| ensures s.g[x].sync == Free && (s.g[x].ppc.PIdle? || s.g[x].ppc.PAsleep?) {
      StuckFreesGuard(s, x);
      StuckPartner(s, x);
    }
    if s.spc.SUse? { AtGuard(s, s.spc.x); }
    if s.spc.SAsleep? {
      NoLostWakeUp(s);
      forall k | 0 <= k < |s.gs| ensures InRange(s, k) && s.g[s.gs[k]].ppc.PIdle? {
        AtGuard(s, s.gs[k]);
      }
    }
  }

  /** From every reachable state, the calls in progress can be run to a settled state. */
  lemma {:induction false} SettlingRun(s: State) returns (ls: seq<Label>)
    requires Reachable(s)
    ensures forall i :: 0 <= i < |ls| ==> Internal(ls[i])
    ensures Run(s, ls).Some? && Settled(Run(s, ls).value)
    decreases RankOf(s)
  {
    hide Settled, Stuck, StepsLeft, SelectStep, PartnerCan;
    if Stuck(s) {
      StuckIsSettled(s);
      ls := [];
    } else {
      var l := Movable(s);
      var t := Next(s, l).value;
      assert Run(s, [l]) == Some(t) by { assert Run(t, [l][1..]) == Some(t); }
      ReachableRun(s, [l]);
      InternalLowersSteps(s, l);
      var ms := SettlingRun(t);
      ls := [l] + ms;
      assert ls[1..] == ms;
    }
  }

  ghost function RankOf(s: State): nat
    requires Reachable(s)
  {
    ReachableInv(s);
    RankNonNegative(s);
    StepsLeft(s)
  }

  lemma Movable(s: State) returns (l: Label)
    requires !Stuck(s)
    ensures Internal(l) && Next(s, l).Some?
  {
    if SelectStep(s).Some? {
      l := Select;
    } else {
      var i: nat :| PartnerCan(s, i);
      l := Step(i);
    }
  }
}
