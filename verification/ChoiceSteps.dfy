/** Every step of the choice protocol keeps its invariant, so every run does. */
module ChoiceSteps {
  import opened Wrappers
  import opened Guards
  import opened Choice
  import opened ChoiceInvariant

  // ---------- read, sync and sync_sem ----------

  /** The roles at the guards before and after a step of the use of guard x. */
  lemma UseRoles(s: State)
    requires GuardsOk(s) && s.spc.SUse? && UseCan(s, s.spc.x, s.spc.u)
    ensures var x, u := s.spc.x, s.spc.u;
            var t := UseStep(s, x, u).value;
            Elsewhere(s, t, x) && RoleOf(s, x) == Use(u) && RoleOf(t, x) == UseRole(s.g[x], u)
  {
    UsePlain(s);
    hide UseMove, UseNext, UseStep, UseCan, GuardsOk;
  }

  lemma UseKeepsGuards(s: State)
    requires GuardsOk(s) && s.spc.SUse? && UseCan(s, s.spc.x, s.spc.u)
    ensures GuardsOk(UseStep(s, s.spc.x, s.spc.u).value)
  {
    var x, u := s.spc.x, s.spc.u;
    UsePlain(s);
    UseRoles(s);
    assert CanUse(s.g[x], u);
    assert GuardOk(s.g[x], Use(u), s.astate, s.selector == Some(x));
    hide UseMove, GuardOk, UseNext, UseStep, UseCan, CanUse, RoleOf, GuardsOk, Elsewhere, UseRole;
    UseKeeps(s.g[x], u, s.astate, s.selector == Some(x));
    OthersKeep(s, UseStep(s, x, u).value, x);
  }

  lemma UseNextPlain(g: Guard, u: UsePc, a: AltState, picked: bool)
    requires GuardOk(g, Use(u), a, picked)
    ensures var n := UseNext(g, u); n.Some? ==> !n.value.USched? && !n.value.UInSched? && !n.value.USchedUnlock?
  {
  }

  /** The use of a guard goes on outside schedule. */
  lemma UsePlain(s: State)
    requires GuardsOk(s) && s.spc.SUse? && UseCan(s, s.spc.x, s.spc.u)
    ensures var x, u := s.spc.x, s.spc.u;
            var n := UseNext(s.g[x], u);
            && !u.USched? && !u.UInSched? && !u.USchedUnlock?
            && (n.Some? ==> !n.value.USched? && !n.value.UInSched? && !n.value.USchedUnlock?)
            && UseStep(s, x, u) ==
               Some(Put(s, x, UseMove(s.g[x], u)).(spc := if n.None? then SIdle else SUse(x, n.value)))
  {
    var x, u := s.spc.x, s.spc.u;
    assert GuardOk(s.g[x], Use(u), s.astate, s.selector == Some(x));
    UseNextPlain(s.g[x], u, s.astate, s.selector == Some(x));
    hide UseMove, UseNext;
  }

  lemma UseKeepsEnrolled(s: State)
    requires EnrolledOk(s) && GuardsOk(s) && s.spc.SUse? && UseCan(s, s.spc.x, s.spc.u)
    ensures EnrolledOk(UseStep(s, s.spc.x, s.spc.u).value)
  {
    UsePlain(s);
    UseKind(s.g[s.spc.x], s.spc.u);
    hide UseMove, UseNext, UseStep, GuardsOk, EnrolledOk, At;
    EnrolledStays(s, UseStep(s, s.spc.x, s.spc.u).value);
  }

  lemma UseKeepsAlt(s: State)
    requires AltOk(s) && GuardsOk(s) && s.spc.SUse? && UseCan(s, s.spc.x, s.spc.u)
    ensures AltOk(UseStep(s, s.spc.x, s.spc.u).value)
  {
    UsePlain(s);
    UseKind(s.g[s.spc.x], s.spc.u);
    hide UseMove, UseNext, UseStep, GuardsOk;
  }

  lemma UseKeepsRest(s: State)
    requires SelOk(s) && AltOk(s) && GuardsOk(s) && s.spc.SUse? && UseCan(s, s.spc.x, s.spc.u)
    ensures SelOk(UseStep(s, s.spc.x, s.spc.u).value)
  {
    UsePlain(s);
    UseKind(s.g[s.spc.x], s.spc.u);
    hide UseMove, UseNext, UseStep, GuardsOk;
  }

  // ---------- enable ----------

  predicate Enables(p: SelPc) {
    p.SEnSem? || p.SEnLock? || p.SEnBody? || p.SEnUnlock?
  }

  /** The role at the guard being enabled, before and after the step. */
  lemma EnableRoles(s: State)
    requires Enables(s.spc) && EnableStep(s).Some?
    ensures var t := EnableStep(s).value;
            var x := s.gs[s.spc.k];
            && (forall y: nat :: y != x ==> RoleOf(s, y) == Away && RoleOf(t, y) == Away)
            && RoleOf(s, x) == (match s.spc
                                case SEnSem(_) => Away
                                case SEnLock(_) => EnLock
                                case SEnBody(_) => EnBody
                                case SEnUnlock(_, r) => EnUnlock(r))
            && (s.spc.SEnSem? ==> RoleOf(t, x) == EnLock)
            && (s.spc.SEnLock? ==> RoleOf(t, x) == EnBody)
            && (s.spc.SEnBody? && !EnableCallsSchedule(s.g[x]) ==> RoleOf(t, x) == EnUnlock(EnableBody(s.g[x]).1))
            && (s.spc.SEnUnlock? ==> RoleOf(t, x) == Away)
  {
    hide EnableBody, EnableCallsSchedule;
  }

  /** The one guard that enable is working on. */
  lemma EnableKeepsGuard(s: State)
    requires Inv(s) && Enables(s.spc) && EnableStep(s).Some?
    ensures var t, x := EnableStep(s).value, s.gs[s.spc.k];
            x < |t.g| && GuardOk(t.g[x], RoleOf(t, x), t.astate, t.selector == Some(x))
  {
    var x := s.gs[s.spc.k];
    var g, picked := s.g[x], s.selector == Some(x);
    assert GuardOk(g, RoleOf(s, x), Enabling, picked);
    assert s.spc.SEnSem? ==> g.kind.Barrier? && !g.enrolled by { if s.spc.SEnSem? { NotEnrolledAt(s, s.spc.k); } }
    hide GuardOk, EnableBody, EnableCallsSchedule, AltOk, EnrolledOk, SelOk, GuardsOk, RoleOf;
    EnableRoles(s);
    match s.spc {
      case SEnSem(k) => EnSemKeeps(g, Enabling, picked);
      case SEnLock(k) => EnLockKeeps(g, Enabling, picked);
      case SEnBody(k) => EnBodyKeeps(g, picked);
      case SEnUnlock(k, r) => EnUnlockKeeps(g, r, picked);
    }
  }

  lemma EnableKeepsGuards(s: State)
    requires Inv(s) && Enables(s.spc) && EnableStep(s).Some?
    ensures GuardsOk(EnableStep(s).value)
  {
    EnableKeepsGuard(s);
    hide GuardOk, EnableBody, EnableCallsSchedule, AltOk, EnrolledOk, RoleOf;
    EnableRoles(s);
    OthersKeep(s, EnableStep(s).value, s.gs[s.spc.k]);
  }

  /** A guard at or after the end of the enrolled positions is not enrolled. */
  lemma NotEnrolledAt(s: State, k: int)
    requires EnrolledOk(s) && GoodList(s, s.gs) && 0 <= k < |s.gs| && (k < Lo(s.spc) || Hi(s.spc, |s.gs|) <= k)
    ensures !s.g[s.gs[k]].enrolled
  {
  }

  /** t has the enrolled guards of s. */
  predicate SameEnrolled(s: State, t: State) {
    && t.gs == s.gs && |t.g| == |s.g|
    && (forall y :: 0 <= y < |s.g| ==> t.g[y].enrolled == s.g[y].enrolled)
  }

  /** t differs from s in that the guard at position k has become, or stopped being, enrolled. */
  predicate EnrolledBut(s: State, t: State, k: int, e: bool)
  {
    && t.gs == s.gs && |t.g| == |s.g| && InRange(s, k)
    && t.g[s.gs[k]].enrolled == e
    && (forall y :: 0 <= y < |s.g| && y != s.gs[k] ==> t.g[y].enrolled == s.g[y].enrolled)
  }

  lemma EnrolledStays(s: State, t: State)
    requires EnrolledOk(s) && SameEnrolled(s, t)
    requires Lo(t.spc) == Lo(s.spc) && Hi(t.spc, |s.gs|) == Hi(s.spc, |s.gs|)
    ensures EnrolledOk(t)
  {
    hide Lo, Hi;
    forall y | 0 <= y < |t.g| && t.g[y].enrolled ensures At(t.gs, Lo(t.spc), Hi(t.spc, |t.gs|), y) {
      assert s.g[y].enrolled;
    }
  }

  lemma EnrolledGrows(s: State, t: State, k: int)
    requires EnrolledOk(s) && EnrolledBut(s, t, k, true)
    requires Lo(s.spc) == Lo(t.spc) <= k == Hi(s.spc, |s.gs|) && Hi(t.spc, |s.gs|) == k + 1
    ensures EnrolledOk(t)
  {
    hide Lo, Hi;
    forall y | 0 <= y < |t.g| && t.g[y].enrolled ensures At(t.gs, Lo(t.spc), Hi(t.spc, |t.gs|), y) {
      if y == s.gs[k] { assert t.gs[k] == y; } else { assert At(s.gs, Lo(s.spc), Hi(s.spc, |s.gs|), y); }
    }
  }

  lemma EnrolledShrinks(s: State, t: State, k: int)
    requires EnrolledOk(s) && EnrolledBut(s, t, k, false) && Distinct(s.gs)
    requires Lo(s.spc) == k && Lo(t.spc) == k + 1 && Hi(t.spc, |s.gs|) == Hi(s.spc, |s.gs|)
    ensures EnrolledOk(t)
  {
    hide Lo, Hi;
    forall y | 0 <= y < |t.g| && t.g[y].enrolled ensures At(t.gs, Lo(t.spc), Hi(t.spc, |t.gs|), y) {
      assert At(s.gs, Lo(s.spc), Hi(s.spc, |s.gs|), y);
    }
  }

  lemma EnableKeepsEnrolled(s: State)
    requires Inv(s) && Enables(s.spc) && EnableStep(s).Some?
    ensures EnrolledOk(EnableStep(s).value)
  {
    var t := EnableStep(s).value;
    var k := s.spc.k;
    if s.spc.SEnBody? {
      var x := s.gs[k];
      assert GuardOk(s.g[x], EnBody, s.astate, s.selector == Some(x));
      EnBodyKeeps(s.g[x], s.selector == Some(x));
      assert EnrolledBut(s, t, k, true);
      hide *;
      EnrolledGrows(s, t, k);
    } else {
      assert SameEnrolled(s, t);
      EnrolledStays(s, t);
    }
  }

  lemma EnablesBody(s: State)
    requires Inv(s) && s.spc.SEnBody?
    ensures !EnableCallsSchedule(s.g[s.gs[s.spc.k]])
  {
    var x := s.gs[s.spc.k];
    assert GuardOk(s.g[x], EnBody, s.astate, s.selector == Some(x));
  }

  lemma EnableKeepsAlt(s: State)
    requires Inv(s) && Enables(s.spc) && EnableStep(s).Some?
    ensures AltOk(EnableStep(s).value)
  {
    if s.spc.SEnBody? { EnablesBody(s); }
    hide GuardsOk, EnrolledOk, SelOk, EnableCallsSchedule;
  }

  lemma EnableKeepsSel(s: State)
    requires Inv(s) && Enables(s.spc) && EnableStep(s).Some?
    ensures SelOk(EnableStep(s).value)
  {
    if s.spc.SEnBody? { EnablesBody(s); }
    hide GuardsOk, EnrolledOk, AltOk, EnableCallsSchedule, EnableBody;
    if s.spc.SEnUnlock? { assert At(s.gs, 0, s.spc.k + 1, s.gs[s.spc.k]); }
  }

  // ---------- disable ----------

  predicate Disables(p: SelPc) {
    p.SDisLock? || p.SDisBody? || p.SDisPost? || p.SDisUnlock?
  }

  function Care(p: SelPc): bool
    requires Disables(p)
  {
    if p.SDisPost? then false else p.care
  }

  lemma DisableRoles(s: State)
    requires Disables(s.spc) && DisableStep(s).Some?
    requires GoodList(s, s.gs) && (Care(s.spc) <==> s.selected == s.spc.i)
    ensures var t := DisableStep(s).value;
            var x := s.gs[s.spc.i];
            && (forall y: nat :: y != x ==> RoleOf(s, y) == RoleOf(t, y))
            && RoleOf(s, x) == (match s.spc
                                case SDisLock(_, _, c) => DisLock(c)
                                case SDisBody(_, _, c) => DisBody(c)
                                case SDisPost(_, _) => DisPost
                                case SDisUnlock(_, _, c) => DisUnlock(c))
            && RoleOf(t, x) == (match s.spc
                                case SDisLock(_, _, c) => DisBody(c)
                                case SDisBody(_, _, c) => if s.g[x].kind.Barrier? && !c then DisPost else DisUnlock(c)
                                case SDisPost(_, _) => DisUnlock(false)
                                case SDisUnlock(_, _, c) => if c then Kept else Away)
  {
    hide DisableBody;
  }

  lemma DisableFacts(s: State)
    requires Inv(s) && Disables(s.spc) && DisableStep(s).Some?
    ensures GoodList(s, s.gs) && InRange(s, s.spc.i) && s.astate == Ready
    ensures Care(s.spc) <==> s.selected == s.spc.i
    ensures Care(s.spc) <==> s.selector == Some(s.gs[s.spc.i])
  {
    hide GuardsOk, EnrolledOk, AltOk;
  }

  lemma DisableKeepsGuards(s: State)
    requires Inv(s) && Disables(s.spc) && DisableStep(s).Some?
    ensures GuardsOk(DisableStep(s).value)
  {
    hide SelOk, AltOk, EnrolledOk, RoleOf, GuardOk, DisableBody;
    DisableFacts(s);
    DisableRoles(s);
    var t := DisableStep(s).value;
    var x := s.gs[s.spc.i];
    var g, care := s.g[x], Care(s.spc);
    assert GuardOk(g, RoleOf(s, x), Ready, care);
    match s.spc {
      case SDisLock(_, _, _) => DisLockKeeps(g, care);
      case SDisBody(_, _, _) => DisBodyKeeps(g, care);
      case SDisPost(_, _) => DisPostKeeps(g);
      case SDisUnlock(_, _, _) => DisUnlockKeeps(g, care);
    }
    OthersKeep(s, t, x);
  }

  /** Only the body of disable changes which guards are enrolled, and the first position with them. */
  lemma DisableEnrols(s: State)
    requires Disables(s.spc) && DisableStep(s).Some?
    ensures var t := DisableStep(s).value;
            && Hi(t.spc, |s.gs|) == Hi(s.spc, |s.gs|)
            && if s.spc.SDisBody? then
                 EnrolledBut(s, t, s.spc.i, false) && Lo(s.spc) == s.spc.i && Lo(t.spc) == s.spc.i + 1
               else SameEnrolled(s, t) && Lo(t.spc) == Lo(s.spc)
  {
  }

  lemma DisableKeepsEnrolled(s: State)
    requires SelOk(s) && EnrolledOk(s) && Disables(s.spc) && DisableStep(s).Some?
    ensures EnrolledOk(DisableStep(s).value)
  {
    assert Distinct(s.gs);
    DisableEnrols(s);
    hide SelOk, EnrolledOk, DisableStep, SameEnrolled, EnrolledBut, Lo, Hi, Distinct;
    if s.spc.SDisBody? {
      EnrolledShrinks(s, DisableStep(s).value, s.spc.i);
    } else {
      EnrolledStays(s, DisableStep(s).value);
    }
  }

  lemma DisableKeepsAlt(s: State)
    requires AltOk(s) && Disables(s.spc) && DisableStep(s).Some?
    ensures AltOk(DisableStep(s).value)
  {
  }

  lemma DisableKeepsChosen(s: State)
    requires Ranges(s) && Chosen(s) && GoodList(s, s.gs) && Disables(s.spc) && DisableStep(s).Some?
    ensures Chosen(DisableStep(s).value)
  {
    hide DisableBody;
  }

  lemma DisableKeepsRest(s: State)
    requires SelOk(s) && AltOk(s) && Disables(s.spc) && DisableStep(s).Some?
    ensures SelOk(DisableStep(s).value)
  {
    DisableKeepsChosen(s);
    hide Chosen, DisableBody;
  }

  // ---------- The other steps of select, which change no guard ----------

  predicate Quiet(p: SelPc) {
    !Enables(p) && !Disables(p) && !p.SUse? && !p.SIdle? && !p.SEnSelf?
  }

  lemma QuietGuard(g: Guard, r: Role, a: AltState, b: AltState, picked: bool)
    requires GuardOk(g, r, a, picked) && !r.EnUnlock?
    requires a == b || !g.enrolled || (a == Enabling && b == Waiting)
    ensures GuardOk(g, r, b, picked)
  {
  }

  lemma EnableStarts(g: Guard, a: AltState, picked: bool)
    requires GuardOk(g, Away, a, picked) && !g.enrolled && g.kind.Channel?
    ensures GuardOk(g, EnLock, a, picked)
  {
  }

  lemma DisableStarts(g: Guard, picked: bool)
    requires GuardOk(g, Away, Ready, picked) && g.enrolled
    ensures GuardOk(g, DisLock(picked), Ready, picked)
  {
  }

  /** How a quiet step changes the role at x and m_state. */
  predicate QuietRole(s: State, t: State, x: nat) {
    && t.g == s.g && t.selector == s.selector && x < |s.g|
    && !RoleOf(s, x).EnUnlock?
    && (|| (RoleOf(t, x) == RoleOf(s, x)
        && (t.astate == s.astate || !s.g[x].enrolled || (s.astate == Enabling && t.astate == Waiting)))
        || (t.astate == s.astate && RoleOf(s, x) == Away && RoleOf(t, x) == EnLock && !s.g[x].enrolled
            && s.g[x].kind.Channel?)
        || (t.astate == s.astate == Ready && RoleOf(s, x) == Away && RoleOf(t, x) == DisLock(s.selector == Some(x))
            && s.g[x].enrolled)
        || (t.astate == s.astate && RoleOf(s, x) == Kept && RoleOf(t, x) == Use(ULock(true))))
  }

  lemma StartDisableRole(s: State, x: nat)
    requires SelOk(s) && EnrolledOk(s) && s.spc.SWUnlock? && SelectStep(s).Some? && x < |s.g|
    ensures QuietRole(s, SelectStep(s).value, x)
  {
    hide Chosen;
    if s.g[x].enrolled { assert At(s.gs, Lo(s.spc), Hi(s.spc, |s.gs|), x); }
  }

  lemma LateRole(s: State, x: nat)
    requires SelOk(s) && EnrolledOk(s) && (s.spc.SDis? || s.spc.SEnd? || s.spc.SChosen?) && SelectStep(s).Some?
             && x < |s.g|
    ensures QuietRole(s, SelectStep(s).value, x)
  {
    if s.g[x].enrolled { assert At(s.gs, Lo(s.spc), Hi(s.spc, |s.gs|), x); }
    hide EnableStep, DisableStep, UseStep, At;
  }

  lemma EarlyRole(s: State, x: nat)
    requires SelOk(s) && EnrolledOk(s) && SelectStep(s).Some? && x < |s.g|
    requires s.spc.SStart? || s.spc.STop? || s.spc.SBody? || s.spc.SUnlock? || s.spc.SFix?
    ensures QuietRole(s, SelectStep(s).value, x)
  {
    assert s.spc.SStart? ==> !s.g[x].enrolled || Lo(s.spc) < Hi(s.spc, |s.gs|);
    if s.spc.SBody? { NotEnrolledAt(s, s.spc.k); }
    hide Chosen, EnableStep, DisableStep, UseStep, At;
  }

  lemma WaitRole(s: State, x: nat)
    requires SelOk(s) && SelectStep(s).Some? && x < |s.g|
    requires s.spc.SWLock? || s.spc.SWBody? || s.spc.SWoken?
    ensures QuietRole(s, SelectStep(s).value, x)
  {
    hide Chosen, EnableStep, DisableStep, UseStep;
  }

  lemma QuietChangesRole(s: State, x: nat)
    requires Inv(s) && Quiet(s.spc) && SelectStep(s).Some? && x < |s.g|
    ensures QuietRole(s, SelectStep(s).value, x)
  {
    assert !s.spc.SAsleep?;
    hide SelOk, EnrolledOk, GuardsOk, AltOk, QuietRole, SelectStep;
    if s.spc.SWUnlock? {
      StartDisableRole(s, x);
    } else if s.spc.SDis? || s.spc.SEnd? || s.spc.SChosen? {
      LateRole(s, x);
    } else if s.spc.SWLock? || s.spc.SWBody? || s.spc.SWoken? {
      WaitRole(s, x);
    } else {
      EarlyRole(s, x);
    }
  }

  lemma QuietKeepsGuards(s: State)
    requires Inv(s) && Quiet(s.spc) && SelectStep(s).Some?
    ensures GuardsOk(SelectStep(s).value)
  {
    var t := SelectStep(s).value;
    hide GuardOk, RoleOf, SelectStep, SelOk, AltOk, EnrolledOk, Quiet;
    hide GuardsOk, QuietRole;
    assert |s.g| == |t.g| by { QuietSame(s); }
    forall x | 0 <= x < |s.g| ensures QuietRole(s, t, x) {
      QuietChangesRole(s, x);
    }
    QuietSame(s);
    QuietGuards(s, t);
  }

  lemma QuietGuards(s: State, t: State)
    requires GuardsOk(s) && t.g == s.g
    requires forall x :: 0 <= x < |s.g| ==> QuietRole(s, t, x)
    ensures GuardsOk(t)
  {
    hide GuardOk, RoleOf;
    forall x | 0 <= x < |t.g| ensures GuardOk(t.g[x], RoleOf(t, x), t.astate, t.selector == Some(x)) {
      var g, r, picked := s.g[x], RoleOf(s, x), s.selector == Some(x);
      assert QuietRole(s, t, x);
      assert GuardOk(g, r, s.astate, picked);
      if RoleOf(t, x) == r {
        QuietGuard(g, r, s.astate, t.astate, picked);
      } else if RoleOf(t, x) == EnLock {
        EnableStarts(g, s.astate, picked);
      } else if r == Away {
        DisableStarts(g, picked);
      } else {
        PromiseUsed(g, s.astate, picked);
      }
    }
  }

  lemma QuietSame(s: State)
    requires Quiet(s.spc) && SelectStep(s).Some?
    ensures SelectStep(s).value.g == s.g && SelectStep(s).value.gs == s.gs && SelectStep(s).value.selector == s.selector
  {
  }

  lemma QuietKeepsBounds(s: State)
    requires SelOk(s) && Quiet(s.spc) && SelectStep(s).Some?
    ensures var t := SelectStep(s).value;
            if t.spc.SEnd? then Lo(s.spc) == Hi(s.spc, |s.gs|) && Lo(t.spc) == Hi(t.spc, |s.gs|)
            else Lo(t.spc) == Lo(s.spc) && Hi(t.spc, |s.gs|) == Hi(s.spc, |s.gs|)
  {
    hide Chosen;
  }

  lemma QuietKeepsEnrolled(s: State)
    requires Inv(s) && Quiet(s.spc) && SelectStep(s).Some?
    ensures EnrolledOk(SelectStep(s).value)
  {
    var t := SelectStep(s).value;
    QuietKeepsBounds(s);
    QuietSame(s);
    hide SelOk, GuardsOk, AltOk, SelectStep, Lo, Hi;
    if !t.spc.SEnd? { EnrolledStays(s, t); }
  }

  lemma QuietKeepsAlt(s: State)
    requires Inv(s) && Quiet(s.spc) && SelectStep(s).Some?
    ensures AltOk(SelectStep(s).value)
  {
    hide GuardsOk, EnrolledOk, Chosen, Ranges;
    QuietSame(s);
  }

  lemma QuietKeepsChosen(s: State)
    requires SelOk(s) && Quiet(s.spc) && SelectStep(s).Some?
    ensures var t := SelectStep(s).value; (InSelect(t.spc) || t.spc.SEnd?) && t.astate == Ready ==> Chosen(t)
  {
  }

  lemma QuietKeepsRanges(s: State)
    requires SelOk(s) && Quiet(s.spc) && SelectStep(s).Some?
    ensures var t := SelectStep(s).value; Ranges(t) && (!t.spc.SIdle? && !t.spc.SUse? ==> GoodList(t, t.gs))
  {
    QuietSame(s);
    hide EnableStep, DisableStep, UseStep, At;
  }

  lemma QuietKeepsPhase(s: State)
    requires SelOk(s) && Quiet(s.spc) && SelectStep(s).Some?
    ensures var t := SelectStep(s).value;
            && Phase(t)
            && (InSelect(t.spc) || t.spc.SEnd? ==> t.picks == One(t.astate == Ready))
            && (t.spc.SChosen? ==> t.picks == 1)
  {
    hide Chosen;
  }

  // ---------- All steps ----------

  lemma SelectKeeps(s: State)
    requires Inv(s) && SelectStep(s).Some?
    ensures Inv(SelectStep(s).value)
  {
    hide Phase, Chosen, AltOk, EnrolledOk;
    if Enables(s.spc) {
      EnableKeepsGuards(s);
      EnableKeepsEnrolled(s);
      EnableKeepsAlt(s);
      EnableKeepsSel(s);
    } else if Disables(s.spc) {
      DisableKeepsGuards(s);
      DisableKeepsEnrolled(s);
      DisableKeepsAlt(s);
      DisableKeepsRest(s);
    } else if s.spc.SUse? {
      UseKeepsGuards(s);
      UseKeepsEnrolled(s);
      UseKeepsAlt(s);
      UseKeepsRest(s);
    } else {
      QuietKeepsGuards(s);
      QuietKeepsEnrolled(s);
      QuietKeepsAlt(s);
      QuietKeepsRanges(s);
      QuietKeepsPhase(s);
      QuietKeepsChosen(s);
    }
  }

  lemma CallKeepsGuards(s: State, t: State)
    requires GuardsOk(s) && s.spc.SIdle? && (forall x :: 0 <= x < |s.g| ==> !s.g[x].enrolled)
    requires t.g == s.g && t.astate == s.astate && t.selector == s.selector
    requires t.spc.SStart? || (t.spc.SUse? && t.spc.x < |s.g|
             && t.spc.u == if s.g[t.spc.x].kind.Channel? then ULock(false) else USem)
    ensures GuardsOk(t)
  {
    hide GuardOk;
    forall x | 0 <= x < |t.g| ensures GuardOk(t.g[x], RoleOf(t, x), t.astate, t.selector == Some(x)) {
      assert GuardOk(s.g[x], Away, s.astate, s.selector == Some(x));
      UseStarts(s.g[x], s.astate, s.selector == Some(x));
    }
  }

  lemma CallKeeps(s: State, l: Label)
    requires Inv(s) && (l.CallSelect? || l.CallUse?) && Next(s, l).Some?
    ensures Inv(Next(s, l).value)
  {
    hide GuardsOk;
    CallKeepsGuards(s, Next(s, l).value);
  }

  lemma NextKeeps(s: State, l: Label)
    requires Inv(s) && Next(s, l).Some?
    ensures Inv(Next(s, l).value)
  {
    hide Inv, SelectStep, PartnerCall;
    match l
    case Select => SelectKeeps(s);
    case Step(i) => PartnerKeeps(s, i);
    case CallPartner(i, v) => PartnerCallKeeps(s, i, v);
    case CallSelect(_) => CallKeeps(s, l);
    case CallUse(_) => CallKeeps(s, l);
  }

  /** The invariant holds in every state that a run from an initial state reaches. */
  lemma {:induction false} RunKeeps(s: State, ls: seq<Label>)
    requires Inv(s) && Run(s, ls).Some?
    ensures Inv(Run(s, ls).value)
    decreases |ls|
  {
    if ls != [] {
      NextKeeps(s, ls[0]);
      RunKeeps(Next(s, ls[0]).value, ls[1..]);
    }
  }
}
