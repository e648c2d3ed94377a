/** What single steps of the step system change: the facts that the threads need about the fields. */
module KernelEffects {
  import opened Wrappers
  import opened Guards
  import opened Choice
  import opened ChoiceInvariant
  import opened ChoiceTheorems
  import opened ChoiceProgress
  import opened SelectTurns
  import opened KernelObjects

  /** The selecting thread is in the wait set of guard x. */
  predicate InWaitSet(s: State, x: nat) {
    s.spc == SUse(x, UAsleep)
  }

  /** Everything that the alternative's fields show is the same. */
  predicate SameAlt(s: State, t: State) {
    t.alt == s.alt && t.astate == s.astate && t.selector == s.selector && t.spc.SAsleep? == s.spc.SAsleep?
        && |t.g| == |s.g|
  }

  lemma PartnerEffect(s: State, i: nat)
    requires PartnerCan(s, i)
    ensures PartnerStep(s, i).Some?
    ensures var t := PartnerStep(s, i).value;
            && t.g == s.g[i := PartnerMove(s.g[i], s.astate)]
            && (forall y :: InWaitSet(t, y) <==> InWaitSet(s, y) && !(y == i && s.g[i].ppc.PSignal?))
            && (!AtSchedule(PartnerAt(s.g[i].ppc)) ==> SameAlt(s, t))
  {
    hide PartnerMove;
  }

  lemma NoSuchPartner(s: State, l: Label)
    requires (l.Step? || l.CallPartner?) && l.i >= |s.g|
    ensures Next(s, l).None?
  {
  }

  lemma PartnerCanStep(s: State, i: nat)
    requires PartnerCan(s, i)
    ensures Next(s, Step(i)) == PartnerStep(s, i) && PartnerStep(s, i).Some?
  {
    hide PartnerMove;
  }

  /** In the middle of schedule only the partner's own counter moves. */
  lemma ScheduleEffect(s: State, i: nat)
    requires PartnerCan(s, i) && AtSchedule(PartnerAt(s.g[i].ppc))
    ensures PartnerMove(s.g[i], s.astate) == s.g[i].(ppc := PartnerMove(s.g[i], s.astate).ppc)
    ensures !PartnerMove(s.g[i], s.astate).ppc.PAsleep?
  {
  }

  /** A write that is under way has been given a buffer, and the steps of the other kind are not taken. */
  lemma PartnerKind(s: State, x: nat)
    requires Inv(s) && x < |s.g| && !s.g[x].ppc.PIdle?
    ensures s.g[x].kind.Channel? ==> s.g[x].sent != [] && !s.g[x].ppc.PSem? && !s.g[x].ppc.PPost?
  {
    assert GuardOk(s.g[x], RoleOf(s, x), s.astate, s.selector == Some(x));
  }

  lemma NoWaitInSelect(s: State, u: State)
    requires Undisturbed(s, u) && !s.spc.SUse? && !s.spc.SIdle? && SelectStep(u).Some?
    ensures forall y: nat :: !InWaitSet(u, y) && !InWaitSet(SelectStep(u).value, y)
  {
    hide UseStep;
  }

  lemma ChooseEffect(s: State)
    requires s.spc.SChosen? && SelectStep(s).Some?
    ensures InRange(s, s.spc.p) && SelectStep(s) == Some(s.(spc := SUse(s.gs[s.spc.p], ULock(true))))
  {
  }

  lemma CallUseEffect(s: State, x: nat)
    requires s.spc.SIdle? && x < |s.g|
    ensures Next(s, CallUse(x)) ==
            Some(s.(spc := SUse(x, if s.g[x].kind.Channel? then ULock(false) else USem)))
    ensures AtUse(Next(s, CallUse(x)).value) == if s.g[x].kind.Channel? then Lock else Sem
  {
  }

  lemma SameGot(s: State, t: State)
    requires Undisturbed(s, t)
    ensures |t.g| == |s.g| && forall y :: 0 <= y < |s.g| ==> t.g[y].got == s.g[y].got
  {
  }

  lemma PostEffect(s: State)
    requires s.spc.SDisPost? && SelectStep(s).Some? && InRange(s, s.spc.i)
    ensures var x := s.gs[s.spc.i];
            SelectStep(s) == Some(Put(s, x,
                s.g[x].(sem := s.g[x].sem + 1)).(spc := SDisUnlock(s.spc.b, s.spc.i, false)))
  {
  }

  /** Locking the alternative, after waiting for its signal or not. */
  lemma BodyNeed(s: State)
    requires s.spc.SEnBody?
    ensures NeedOf(s) == Nothing
  {
  }

  lemma AltNeed(s: State)
    requires NeedOf(s) == AltLock || NeedOf(s) == AltSignal
    ensures !s.spc.SIdle? && !s.spc.SUse?
  {
  }

  lemma LockEffect(s: State)
    requires (NeedOf(s) == AltLock || NeedOf(s) == AltSignal) && SelectStep(s).Some?
    ensures var t := SelectStep(s).value;
            t == s.(alt := BySelecting, spc := t.spc) && !t.spc.SAsleep? && !s.spc.SAsleep?
  {
    hide EnableStep, DisableStep, UseStep;
  }

  lemma EnableEffect(s: State)
    requires s.spc.SEnBody? && SelectStep(s).Some? && InRange(s, s.spc.k) && !EnableCallsSchedule(s.g[s.gs[s.spc.k]])
    ensures var x := s.gs[s.spc.k];
            var (h, r) := EnableBody(s.g[x]);
            SelectStep(s) == Some(Put(s, x, h.(enrolled := true)).(spc := SEnUnlock(s.spc.k, r))) && h.ppc == s.g[x].ppc
  {
  }

  lemma CompareEffect(s: State)
    requires s.spc.SDis? && s.spc.i <= s.spc.b && InRange(s, s.spc.i)
    ensures var care := s.selector == Some(s.gs[s.spc.i]);
            var selected := if care then s.spc.i else s.selected;
            SelectStep(s) == Some(s.(selected := selected, spc := SDisLock(s.spc.b, s.spc.i, care)))
  {
  }

  /** In the disabling loop m_selector is the number of a guard. */
  lemma SelectorIsSet(s: State)
    requires Inv(s) && s.spc.SDis?
    ensures s.selector.Some? && s.selector.value < |s.g|
    ensures s.spc.i <= s.spc.b ==> InRange(s, s.spc.i)
  {
  }

  // ---------- The selecting thread inside read or sync ----------

  /** Where the selecting thread is inside read or sync; Done when it is outside. */
  function AtUse(s: State): Boundary {
    if s.spc.SUse? then UseAt(Some(s.spc.u)) else Done
  }

  /** What the invariant says of the use of a guard. */
  predicate UseOk(s: State) {
    s.spc.SUse? ==>
      && s.spc.x < |s.g|
      && var g, u, at := s.g[s.spc.x], s.spc.u, AtUse(s);
         && !AtSchedule(at)
         && (g.kind.Channel? ==> !at.Sem? && !at.Post?)
         && (g.kind.Barrier? ==> !at.Copying?)
         && (g.kind.Channel? && (u.UCopy? || (u.UBody? && !g.bEmpty))
             ==> g.ppc.PAsleep? && g.sent != [] && g.pBuff == Some(|g.sent| - 1))
  }

  lemma InvUse(s: State)
    requires Inv(s)
    ensures UseOk(s)
  {
    if s.spc.SUse? {
      assert GuardOk(s.g[s.spc.x], Use(s.spc.u), s.astate, s.selector == Some(s.spc.x));
    }
  }

  lemma UseEffect(s: State)
    requires UseOk(s) && s.spc.SUse? && SelectStep(s).Some?
    ensures UseCan(s, s.spc.x, s.spc.u)
    ensures var t := SelectStep(s).value;
            var x, g, u := s.spc.x, s.g[s.spc.x], s.spc.u;
            && t.g == s.g[x := UseMove(g, u)] && SameAlt(s, t)
            && (t.spc.SUse? ==> t.spc.x == x) && (t.spc.SUse? || t.spc.SIdle?)
            && AtUse(t) == UseAt(UseNext(g, u))
            && (InWaitSet(t, x) <==> UseNext(g, u) == Some(UAsleep))
            && (forall y: nat :: y != x ==> !InWaitSet(s, y) && !InWaitSet(t, y))
            && PartnerAt(UseMove(g, u).ppc) == PartnerAt(g.ppc)
            && (g.kind.Barrier? ==> UseMove(g, u).got == g.got)
  {
  }

  /** In read: the data has been copied. */
  predicate HasCopied(at: Boundary) {
    at.Signal? || at.Unlock? || at.Done?
  }

  function UseLeft(s: State): nat {
    if s.spc.SUse? then UseRank(s.spc.u) else 0
  }

  lemma UseProgress(s: State)
    requires UseOk(s) && s.spc.SUse? && SelectStep(s).Some?
    ensures var t := SelectStep(s).value;
            && UseLeft(t) < UseLeft(s) && |t.g| == |s.g|
            && (s.g[s.spc.x].kind.Channel? ==>
                  var copies := !HasCopied(AtUse(s)) && HasCopied(AtUse(t));
                  && |t.g[s.spc.x].got| == |s.g[s.spc.x].got| + (if copies then 1 else 0)
                  && (HasCopied(AtUse(s)) ==> HasCopied(AtUse(t))))
  {
  }

  /** The selecting thread uses the guard that select returned, or has met its partner: it need not wait any more. */
  predicate Prompt(s: State) {
    s.spc.SUse? && var u := s.spc.u; u == ULock(true) || u == UBody(true) || u.USignal? || u.UPost? || u.UUnlock?
  }

  lemma PromptMoves(s: State)
    requires Inv(s) && Prompt(s)
    ensures SelectStep(s).Some?
    ensures var t := SelectStep(s).value; t.spc.SUse? ==> Prompt(t)
  {
    assert GuardOk(s.g[s.spc.x], Use(s.spc.u), s.astate, s.selector == Some(s.spc.x));
  }

  lemma PromptStays(s: State, t: State)
    requires Undisturbed(s, t) && Prompt(s)
    ensures Prompt(t)
  {
  }

  /** The next value read from the guard that select returned is the one that was pending. */
  lemma PendingIsRead(i: State, a: seq<Label>, b: seq<Label>, p: nat)
    requires Reachable(i) && a <= b && Run(i, a).Some? && Run(i, b).Some?
    requires var s := Run(i, a).value; s.spc == SChosen(p) && InRange(s, p) && s.g[s.gs[p]].kind.Channel?
    ensures var s, t := Run(i, a).value, Run(i, b).value;
            var x := s.gs[p];
            && |s.g[x].sent| == |s.g[x].got| + 1 && |t.g| == |s.g|
            && (|t.g[x].got| > |s.g[x].got| ==> t.g[x].got[|s.g[x].got|] == s.g[x].sent[|s.g[x].got|])
  {
    var s := Run(i, a).value;
    ReachableRun(i, a);
    RunOfRest(i, a, b);
    hide Reachable, Run;
    SelectedValueIsRead(s, p, b[|a|..]);
  }

  lemma BlockedMeans(s: State)
    requires Blocked(s)
    ensures SelectStep(s).None?
  {
  }

  lemma DoneIsIdle(s: State)
    ensures AtUse(s).Done? <==> !s.spc.SUse?
  {
  }

  /** What the selecting thread waits for at a boundary of its use of guard x. */
  function UseNeed(at: Boundary, x: nat): Need {
    match at
    case Sem => Permit(x)
    case Lock => GuardLock(x)
    case Asleep => GuardSignal(x)
    case _ => Nothing
  }

  lemma NeedInUse(s: State)
    requires UseOk(s) && s.spc.SUse?
    ensures NeedOf(s) == UseNeed(AtUse(s), s.spc.x)
  {
  }

  lemma UseStays(s: State, t: State)
    requires Undisturbed(s, t) && s.spc.SUse?
    ensures t.spc.SUse? && t.spc.x == s.spc.x && AtUse(t) == AtUse(s) && UseLeft(t) <= UseLeft(s)
    ensures |t.g| == |s.g| && (s.spc.x < |s.g| ==> t.g[s.spc.x].got == s.g[s.spc.x].got)
  {
  }
}
