/** select prefers the guards that come earlier in its list. */
module ChoicePriority {
  import opened Wrappers
  import opened Guards
  import opened Choice
  import opened ChoiceInvariant
  import opened ChoiceTheorems
  import CT = ChoiceTheorems
  import CS = ChoiceSteps

  /** select has not gone past position j, or has left its enabling loop there or before. */
  predicate UpTo(s: State, j: int) {
    && 0 <= j < |s.gs|
    && match s.spc
       case SIdle => false
       case SStart => true
       case STop(k) => k <= j
       case SBody(k) => k <= j
       case SEnSem(k) => k <= j
       case SEnLock(k) => k <= j
       case SEnBody(k) => k <= j
       case SEnSelf(_) => false
       case SEnUnlock(k, r) => k <= j && (k == j ==> r)
       case SUnlock(k, leave) => k <= j && (k == j ==> leave)
       case SFix(b) => b <= j
       case SWLock(b) => b <= j
       case SWBody(b) => b <= j
       case SAsleep(b) => b <= j
       case SWoken(b) => b <= j
       case SWUnlock(b) => b <= j
       case SDis(b, _) => b <= j
       case SDisLock(b, _, _) => b <= j
       case SDisBody(b, _, _) => b <= j
       case SDisPost(b, _) => b <= j
       case SDisUnlock(b, _, _) => b <= j
       case SEnd => s.selected <= j
       case SChosen(p) => p <= j
       case SUse(_, _) => false
  }

  lemma EnableStepUpTo(s: State, j: int)
    requires Reachable(s) && UpTo(s, j) && Pending(s, s.gs[j]) && CS.Enables(s.spc)
             && EnableStep(s).Some?
    ensures UpTo(EnableStep(s).value, j) && EnableStep(s).value.gs == s.gs
  {
    if s.spc.SEnBody? { EnableSeesPending(s, s.spc.k); }
    hide Reachable, EnableBody, EnableCallsSchedule, Pending;
  }

  /** The position that select returns is not after bound. */
  lemma SelectedUpToBound(s: State)
    requires Reachable(s) && s.spc.SDis? && s.spc.i > s.spc.b
    ensures s.selected <= s.spc.b
  {
    ReachableInv(s);
    hide GuardsOk, AltOk, EnrolledOk, GoodList;
  }

  lemma LoopStepUpTo(s: State, j: int)
    requires UpTo(s, j) && SelectStep(s).Some? && !CS.Enables(s.spc) && !s.spc.SChosen?
    requires s.spc.SDis? && s.spc.i > s.spc.b ==> s.selected <= s.spc.b
    ensures UpTo(SelectStep(s).value, j) && SelectStep(s).value.gs == s.gs
  {
    hide EnableStep, UseStep;
  }

  lemma SelectStepUpTo(s: State, j: int)
    requires Reachable(s) && UpTo(s, j) && Pending(s, s.gs[j]) && SelectStep(s).Some? && !s.spc.SChosen?
    ensures UpTo(SelectStep(s).value, j) && SelectStep(s).value.gs == s.gs
  {
    if CS.Enables(s.spc) {
      EnableStepUpTo(s, j);
      hide EnableStep, Pending, Reachable, UpTo;
    } else {
      if s.spc.SDis? && s.spc.i > s.spc.b { SelectedUpToBound(s); }
      LoopStepUpTo(s, j);
      hide *;
    }
  }

  lemma PartnerStepUpTo(s: State, j: int, i: nat)
    requires UpTo(s, j) && PartnerStep(s, i).Some?
    ensures UpTo(PartnerStep(s, i).value, j) && PartnerStep(s, i).value.gs == s.gs
  {
    hide PartnerMove;
  }

  lemma UpToIsBefore(s: State, j: int, x: nat)
    requires UpTo(s, j)
    ensures CT.Before(s, x)
  {
  }

  lemma StepUpTo(s: State, j: int, l: Label)
    requires Reachable(s) && UpTo(s, j) && Pending(s, s.gs[j]) && Next(s, l).Some? && !s.spc.SChosen?
    ensures var t := Next(s, l).value; UpTo(t, j) && t.gs == s.gs && Pending(t, s.gs[j])
  {
    PendingStays(s, s.gs[j], l);
    match l {
      case Select => SelectStepUpTo(s, j);
      case Step(i) => PartnerStepUpTo(s, j, i);
      case CallSelect(_) =>
      case CallUse(_) =>
      case CallPartner(_, _) =>
    }
    UpToIsBefore(Next(s, l).value, j, s.gs[j]);
    hide SelectStep, Reachable, PartnerStep, Pending, CT.Before;
  }

  /** The run ls from s goes on until select has returned, at most. */
  predicate WithinSelect(s: State, ls: seq<Label>)
    decreases |ls|
  {
    ls == [] || (!s.spc.SChosen? && Next(s, ls[0]).Some? && WithinSelect(Next(s, ls[0]).value, ls[1..]))
  }

  lemma {:induction false} RunUpTo(s: State, j: int, ls: seq<Label>)
    requires Reachable(s) && UpTo(s, j) && Pending(s, s.gs[j]) && WithinSelect(s, ls)
    ensures Run(s, ls).Some? && UpTo(Run(s, ls).value, j) && Run(s, ls).value.gs == s.gs
    decreases |ls|
  {
    hide Reachable, UpTo, Pending, Next;
    if ls != [] {
      var t := Next(s, ls[0]).value;
      StepUpTo(s, j, ls[0]);
      assert Run(s, [ls[0]]) == Some(t) by { assert Run(t, [ls[0]][1..]) == Some(t); }
      ReachableRun(s, [ls[0]]);
      RunUpTo(t, j, ls[1..]);
    }
  }

  /**
   When select is called while a partner waits at position j of its list, select returns j or an
   earlier position, whatever the partners do meanwhile.
   */
  lemma SelectPrefersEarlier(s: State, j: int, ls: seq<Label>)
    requires Reachable(s) && s.spc.SStart? && 0 <= j < |s.gs| && Pending(s, s.gs[j]) && WithinSelect(s, ls)
    ensures Run(s, ls).Some?
    ensures var t := Run(s, ls).value; t.gs == s.gs && (t.spc.SChosen? ==> t.spc.p <= j)
  {
    hide Reachable, Pending;
    RunUpTo(s, j, ls);
  }
}
