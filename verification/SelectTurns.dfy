/**
 One turn of the selecting thread, when the partner threads may take any steps before it: what it
 finds undisturbed, what it waits for, and where it goes.
 */
module SelectTurns {
  import opened Wrappers
  import opened Guards
  import opened Choice
  import opened ChoiceInvariant
  import opened ChoiceSteps
  import opened ChoiceTheorems

  /** A step of a partner. */
  predicate ByOthers(l: Label) {
    l.Step? || l.CallPartner?
  }

  /** What the selecting thread finds after others have moved: its own locals, and what its locks protect. */
  predicate Undisturbed(s: State, t: State) {
    && t.gs == s.gs && t.selected == s.selected && |t.g| == |s.g|
    && (forall x :: 0 <= x < |s.g| ==> t.g[x].kind == s.g[x].kind && t.g[x].got == s.g[x].got)
    && (|| t.spc == s.spc
        || (s.spc.SAsleep? && t.spc == SWoken(s.spc.b))
        || (s.spc.SUse? && s.spc.u.UAsleep? && t.spc == SUse(s.spc.x, UWoken)))
    && (s.alt == BySelecting ==> t.astate == s.astate && t.selector == s.selector)
    && (s.astate == Ready ==> t.astate == Ready && t.selector == s.selector)
  }

  lemma PartnersDoNotDisturb(s: State, i: nat)
    requires AltOk(s) && PartnerCan(s, i)
    ensures Undisturbed(s, PartnerStep(s, i).value)
  {
    MoveSummary(s.g[i], s.astate);
    hide PartnerMove;
  }

  lemma OthersDoNotDisturb(s: State, l: Label)
    requires Inv(s) && ByOthers(l) && Next(s, l).Some?
    ensures Inv(Next(s, l).value) && Undisturbed(s, Next(s, l).value)
  {
    assert AltOk(s);
    NextKeeps(s, l);
    hide PartnerMove, Inv, AltOk;
    if l.Step? { PartnersDoNotDisturb(s, l.i); }
  }

  lemma SameIsUndisturbed(s: State)
    ensures Undisturbed(s, s)
  {
  }

  lemma UndisturbedTwice(s: State, t: State, u: State)
    requires Undisturbed(s, t) && Undisturbed(t, u) && Inv(s) && Inv(t)
    ensures Undisturbed(s, u)
  {
    hide SelOk, EnrolledOk, GuardsOk;
  }

  /** One turn of the selecting thread, seen from the state s before its partners moved. */
  predicate Advanced(s: State, t: State)
  {
    && t.gs == s.gs
    && (!s.spc.SWUnlock? && !s.spc.SDis? ==> t.selected == s.selected)
    && match s.spc
       case SStart => t.spc == STop(0)
       case STop(k) => t.spc == if k < |s.gs| then SBody(k) else SFix(k)
       case SBody(k) =>
         InRange(s, k) &&
         t.spc == if s.astate == Ready then SUnlock(k - 1, true) else if s.g[s.gs[k]].kind.Barrier? then SEnSem(k)
             else SEnLock(k)
       case SEnSem(k) => t.spc == SEnLock(k)
       case SEnLock(k) => t.spc == SEnBody(k)
       case SEnBody(k) => t.spc.SEnUnlock? && t.spc.k == k
       case SEnUnlock(k, r) => t.spc == SUnlock(k, r)
       case SUnlock(k, leave) => t.spc == if leave then SFix(k) else STop(k + 1)
       case SFix(b) => t.spc == SWLock(if b == |s.gs| then b - 1 else b)
       case SWLock(b) => t.spc == SWBody(b)
       case SWBody(b) => t.spc == if s.astate == Enabling then SAsleep(b) else SWUnlock(b)
       case SAsleep(b) => t.spc == SWUnlock(b)
       case SWUnlock(b) => t.spc == SDis(b, 0) && t.selected == |s.gs|
       case SDis(b, i) =>
         if i > b then t.spc == SEnd && t.selected == s.selected
         else t.spc.SDisLock? && t.spc.b == b && t.spc.i == i && t.selected == if t.spc.care then i else s.selected
       case SDisLock(b, i, care) => t.spc == SDisBody(b, i, care)
       case SDisBody(b, i, care) =>
         InRange(s, i) && t.spc == if s.g[s.gs[i]].kind.Barrier?
             && !care then SDisPost(b, i) else SDisUnlock(b, i, care)
       case SDisPost(b, i) => t.spc == SDisUnlock(b, i, false)
       case SDisUnlock(b, i, _) => t.spc == SDis(b, i + 1)
       case SEnd => t.spc == SChosen(s.selected)
       case SChosen(p) => InRange(s, p) && t.spc == SUse(s.gs[p], ULock(true))
       case _ => true
  }

  lemma EnableAdvances(s: State, u: State, t: State)
    requires Undisturbed(s, u) && Inv(s) && Inv(u) && Enables(s.spc) && SelectStep(u) == Some(t)
    ensures Advanced(s, t)
  {
    if u.spc.SEnBody? { EnablesBody(u); }
    hide EnableCallsSchedule, GuardsOk, EnrolledOk, AltOk;
  }

  lemma DisableAdvances(s: State, u: State, t: State)
    requires Undisturbed(s, u) && Inv(s) && Inv(u) && Disables(s.spc) && SelectStep(u) == Some(t)
    ensures Advanced(s, t)
  {
    hide GuardsOk, EnrolledOk, AltOk;
  }

  /** The alternative's mutex and the positions, from the invariant. */
  predicate Placed(s: State) {
    && (s.alt == BySelecting <==> SelHoldsAlt(s.spc))
    && (s.spc.SBody? ==> InRange(s, s.spc.k))
  }

  lemma WaitAdvances(s: State, u: State, t: State)
    requires Undisturbed(s, u) && Placed(s) && Placed(u) && SelectStep(u) == Some(t)
    requires s.spc.SWLock? || s.spc.SWBody? || s.spc.SAsleep? || s.spc.SWoken? || s.spc.SWUnlock?
    ensures Advanced(s, t)
  {
    hide UseStep, EnableStep, DisableStep;
  }

  lemma LoopAdvances(s: State, u: State, t: State)
    requires Undisturbed(s, u) && Placed(s) && Placed(u) && SelectStep(u) == Some(t)
    requires s.spc.SStart? || s.spc.STop? || s.spc.SBody? || s.spc.SUnlock? || s.spc.SFix?
    ensures Advanced(s, t)
  {
    hide UseStep, EnableStep, DisableStep;
  }

  lemma EndAdvances(s: State, u: State, t: State)
    requires Undisturbed(s, u) && Placed(s) && Placed(u) && SelectStep(u) == Some(t)
    requires s.spc.SDis? || s.spc.SEnd? || s.spc.SChosen? || s.spc.SIdle? || s.spc.SEnSelf?
    ensures Advanced(s, t)
  {
    hide UseStep, EnableStep, DisableStep;
  }

  lemma SelectAdvances(s: State, u: State, t: State)
    requires Undisturbed(s, u) && Inv(s) && Inv(u) && SelectStep(u) == Some(t) && !s.spc.SUse?
    ensures Advanced(s, t)
  {
    assert Placed(s) && Placed(u);
    hide Inv, SelectStep, Advanced, Placed;
    if Enables(s.spc) {
      EnableAdvances(s, u, t);
    } else if Disables(s.spc) {
      DisableAdvances(s, u, t);
    } else if s.spc.SWLock? || s.spc.SWBody? || s.spc.SAsleep? || s.spc.SWoken? || s.spc.SWUnlock? {
      WaitAdvances(s, u, t);
    } else if s.spc.SStart? || s.spc.STop? || s.spc.SBody? || s.spc.SUnlock? || s.spc.SFix? {
      LoopAdvances(s, u, t);
    } else {
      EndAdvances(s, u, t);
    }
  }

  // ---------- What the selecting thread waits for ----------

  /** What the next step waits for: x is a guard. */
  datatype Need = Nothing | AltLock | GuardLock(x: nat) | Permit(x: nat) | AltSignal | GuardSignal(x: nat)

  function GuardAt(s: State, k: int): nat {
    if InRange(s, k) then s.gs[k] else 0
  }

  function NeedOf(s: State): Need {
    match s.spc
    case STop(k) => if k < |s.gs| then AltLock else Nothing
    case SEnSem(k) => Permit(GuardAt(s, k))
    case SEnLock(k) => GuardLock(GuardAt(s, k))
    case SWLock(_) => AltLock
    case SAsleep(_) => AltSignal
    case SWoken(_) => AltSignal
    case SDisLock(_, i, _) => GuardLock(GuardAt(s, i))
    case SUse(x, u) =>
      if u.USem? then Permit(x)
      else if u.ULock? then GuardLock(x)
      else if u.UAsleep? || u.UWoken? then GuardSignal(x)
      else Nothing
    case _ => Nothing
  }

  predicate Met(s: State, w: Need) {
    match w
    case Nothing => true
    case AltLock => s.alt == AltFree
    case GuardLock(x) => x < |s.g| && s.g[x].sync == Free
    case Permit(x) => x < |s.g| && s.g[x].sem > 0
    case AltSignal => !s.spc.SAsleep? && s.alt == AltFree
    case GuardSignal(x) => x < |s.g| && s.spc != SUse(x, UAsleep) && s.g[x].sync == Free
  }

  lemma NeedStays(s: State, t: State)
    requires Undisturbed(s, t)
    ensures NeedOf(t) == NeedOf(s)
  {
  }

  lemma NeedIsEnough(s: State)
    requires SelOk(s) && !s.spc.SIdle? && (s.spc.SUse? ==> !s.spc.u.USched?)
    ensures SelectStep(s).Some? <==> Met(s, NeedOf(s))
  {
    hide Chosen, Phase;
  }

  lemma NoSchedInUse(s: State)
    requires Inv(s) && s.spc.SUse?
    ensures s.spc.x < |s.g| && !s.spc.u.USched? && !s.spc.u.UInSched? && !s.spc.u.USchedUnlock?
  {
    assert GuardOk(s.g[s.spc.x], Use(s.spc.u), s.astate, s.selector == Some(s.spc.x));
  }

  /** What is waited for at a guard is there to be waited for. */
  lemma NeedInRange(s: State)
    requires Inv(s)
    ensures var w := NeedOf(s); w.GuardLock? || w.Permit? || w.GuardSignal? ==> w.x < |s.g|
    ensures NeedOf(s).Permit? ==> s.g[NeedOf(s).x].kind.Barrier?
  {
    if s.spc.SUse? {
      assert GuardOk(s.g[s.spc.x], Use(s.spc.u), s.astate, s.selector == Some(s.spc.x));
    }
  }

  /** In every state of the invariant the selecting thread can move exactly when its need is met. */
  lemma CanMoveIff(s: State)
    requires Inv(s) && !s.spc.SIdle?
    ensures SelectStep(s).Some? <==> Met(s, NeedOf(s))
  {
    if s.spc.SUse? { NoSchedInUse(s); }
    assert SelOk(s);
    hide Inv, SelOk, SelectStep, Met;
    NeedIsEnough(s);
  }

  /** The selecting thread is inside its call and cannot move. */
  predicate Blocked(s: State) {
    !s.spc.SIdle? && SelectStep(s).None?
  }

  /** The run b continues the run a with steps inside select and steps of the partners. */
  predicate Continues(a: seq<Label>, b: seq<Label>) {
    a <= b && forall n :: |a| <= n < |b| ==> b[n] == Label.Select || ByOthers(b[n])
  }

  lemma ContinuesMeans(a: seq<Label>, b: seq<Label>)
    requires Continues(a, b)
    ensures a <= b
  {
  }

  lemma ContinuesTwice(a: seq<Label>, b: seq<Label>, c: seq<Label>)
    requires Continues(a, b) && Continues(b, c)
    ensures Continues(a, c)
  {
  }

  lemma RunSnoc(s: State, ls: seq<Label>, l: Label)
    requires Run(s, ls).Some? && Next(Run(s, ls).value, l).Some?
    ensures Run(s, ls + [l]) == Next(Run(s, ls).value, l)
  {
    var t := Run(s, ls).value;
    hide Next;
    RunAppend(s, ls, [l]);
    assert Run(Next(t, l).value, [l][1..]) == Next(t, l);
  }

  lemma {:induction false} RunOfRest(s: State, a: seq<Label>, b: seq<Label>)
    requires a <= b && Run(s, a).Some? && Run(s, b).Some?
    ensures Run(Run(s, a).value, b[|a|..]) == Run(s, b)
  {
    RunAppend(s, a, b[|a|..]);
    assert a + b[|a|..] == b;
  }

  lemma ChosenIsReady(s: State, p: int)
    requires Inv(s) && s.spc == SChosen(p)
    ensures InRange(s, p) && Arrived(s.g[s.gs[p]]) && s.g[s.gs[p]].ppc.PAsleep?
  {
    assert GuardOk(s.g[s.gs[p]], Kept, s.astate, s.selector == Some(s.gs[p]));
  }
}
