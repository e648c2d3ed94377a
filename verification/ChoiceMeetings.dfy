/** Barrier2 pairs the calls of its two users on every run, with select or without it. */
module ChoiceMeetings {
  import opened Wrappers
  import opened Guards
  import opened Choice
  import opened ChoiceInvariant
  import opened ChoiceTheorems

  /** Calls on one guard: by its partner and by the selecting thread, and how many have returned. */
  datatype Tally = Tally(theirs: nat, ours: nat, theirsBack: nat, oursBack: nat)

  /** The selecting thread is inside read, sync, or the sync_sem of a chosen barrier, on guard x. */
  predicate Inside(s: State, x: nat) {
    s.spc.SUse? && s.spc.x == x
  }

  /** The label l, taken in the state s, seen as a call or a return on guard x. */
  function Tallied(t: Tally, s: State, l: Label, x: nat): Tally {
    match l
    case CallPartner(i, _) => if i == x then t.(theirs := t.theirs + 1) else t
    case Step(i) =>
      if i == x < |s.g| && s.g[x].ppc.PUnlock? then t.(theirsBack := t.theirsBack + 1) else t
    case CallUse(y) => if y == x then t.(ours := t.ours + 1) else t
    case Select =>
      if s.spc.SChosen? && InRange(s, s.spc.p) && s.gs[s.spc.p] == x then t.(ours := t.ours + 1)
      else if s.spc == SUse(x, UUnlock) then t.(oursBack := t.oursBack + 1)
      else t
    case CallSelect(_) => t
  }

  function TallyRun(t: Tally, s: State, ls: seq<Label>, x: nat): Tally
    decreases |ls|
  {
    if ls == [] || Next(s, ls[0]).None? then t
    else TallyRun(Tallied(t, s, ls[0], x), Next(s, ls[0]).value, ls[1..], x)
  }

  /** The partner is inside sync and has not met the other side. */
  predicate PartnerWaits(ppc: PartnerPc) {
    !(ppc.PIdle? || ppc.PWoken? || ppc.PPost? || ppc.PUnlock?)
  }

  predicate SelectingWaits(s: State, x: nat) {
    Inside(s, x) && !(s.spc.u.UWoken? || s.spc.u.UPost? || s.spc.u.UUnlock?)
  }

  /** The two sides have met equally often. */
  predicate Agrees(t: Tally, s: State, x: nat) {
    && x < |s.g| && s.g[x].kind.Barrier?
    && t.theirs == t.theirsBack + One(!s.g[x].ppc.PIdle?)
    && t.ours == t.oursBack + One(Inside(s, x))
    && t.theirs - One(PartnerWaits(s.g[x].ppc)) == t.ours - One(SelectingWaits(s, x))
  }

  lemma PartnerMeets(g: Guard, a: AltState)
    requires g.kind.Barrier? && !g.ppc.PIdle?
    ensures var h := PartnerMove(g, a);
            && h.kind == g.kind && (h.ppc.PIdle? <==> g.ppc.PUnlock?)
            && (PartnerWaits(h.ppc) <==> PartnerWaits(g.ppc) && !g.ppc.PSignal?)
  {
  }

  lemma PartnerStepAgrees(t: Tally, s: State, x: nat)
    requires Reachable(s) && Agrees(t, s, x) && PartnerStep(s, x).Some?
    ensures Agrees(Tallied(t, s, Step(x), x), PartnerStep(s, x).value, x)
  {
    SignalsMeetOneWaiter(s, x);
    PartnerMeets(s.g[x], s.astate);
    hide Reachable, PartnerMove;
  }

  lemma UseStepAgrees(t: Tally, s: State, x: nat)
    requires Reachable(s) && Agrees(t, s, x) && Inside(s, x) && SelectStep(s).Some?
    ensures Agrees(Tallied(t, s, Select, x), SelectStep(s).value, x)
  {
    SignalsMeetOneWaiter(s, x);
    hide Reachable;
  }

  /** Outside its calls on x the selecting thread enters one only with what select has chosen. */
  lemma OtherStepEnters(s: State, x: nat)
    requires SelectStep(s).Some? && x < |s.g| && !Inside(s, x)
    ensures var b := SelectStep(s).value;
            if s.spc.SChosen? && InRange(s, s.spc.p) && s.gs[s.spc.p] == x then b.spc == SUse(x, ULock(true))
            else !Inside(b, x)
  {
    hide UseMove, EnableBody, DisableBody;
  }

  lemma SelectStepAgrees(t: Tally, s: State, x: nat)
    requires Reachable(s) && Agrees(t, s, x) && SelectStep(s).Some?
    ensures Agrees(Tallied(t, s, Select, x), SelectStep(s).value, x)
  {
    if Inside(s, x) {
      UseStepAgrees(t, s, x);
    } else {
      SelectLeavesMeeting(s, x);
      OtherStepEnters(s, x);
    }
    hide SelectStep, Reachable;
  }

  lemma StepAgrees(t: Tally, s: State, l: Label, x: nat)
    requires Reachable(s) && Agrees(t, s, x) && Next(s, l).Some?
    ensures Agrees(Tallied(t, s, l, x), Next(s, l).value, x)
  {
    if l.Select? {
      SelectStepAgrees(t, s, x);
    } else if l == Step(x) {
      PartnerStepAgrees(t, s, x);
    } else {
      hide SelectStep, PartnerMove, Reachable;
    }
  }

  lemma {:induction false} RunAgrees(t: Tally, s: State, ls: seq<Label>, x: nat)
    requires Reachable(s) && Agrees(t, s, x) && Run(s, ls).Some?
    ensures Agrees(TallyRun(t, s, ls, x), Run(s, ls).value, x)
    decreases |ls|
  {
    hide Reachable, Agrees, Next, Tallied;
    if ls != [] {
      var b := Next(s, ls[0]).value;
      StepAgrees(t, s, ls[0], x);
      assert Run(s, ls[..1]) == Some(b) by { assert ls[..1][1..] == []; }
      ReachableRun(s, ls[..1]);
      RunAgrees(Tallied(t, s, ls[0], x), b, ls[1..], x);
    }
  }

  /**
   On every run of a system of guards, a call of sync on a barrier returns only after the matching
   call of the other side has come: the k-th return of either side follows the k-th call of the
   other, no side has more than one call inside, and the two sides' returns differ by at most one.
   */
  lemma BarrierMeetings(kinds: seq<Kind>, a: AltState, ls: seq<Label>, x: nat)
    requires x < |kinds| && kinds[x].Barrier? && Run(Init(kinds, a), ls).Some?
    ensures var t := TallyRun(Tally(0, 0, 0, 0), Init(kinds, a), ls, x);
            && t.theirsBack <= t.ours && t.oursBack <= t.theirs
            && t.theirsBack <= t.theirs <= t.theirsBack + 1 && t.oursBack <= t.ours <= t.oursBack + 1
            && -1 <= t.theirsBack - t.oursBack <= 1
  {
    assert Reachable(Init(kinds, a)) by { assert Run(Init(kinds, a), []) == Some(Init(kinds, a)); }
    hide Reachable, Next;
    RunAgrees(Tally(0, 0, 0, 0), Init(kinds, a), ls, x);
  }
}
