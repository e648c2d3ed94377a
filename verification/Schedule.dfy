/**
 What a schedule makes of the choice protocol: before each step of the selecting thread the partners
 take whole turns of listed steps, as far as these are possible, until that step is possible.
 */
module Schedule {
  import opened Wrappers
  import opened Choice
  import opened ChoiceTheorems
  import opened SelectTurns

  /** The state, the turns that are left, and the run so far. */
  datatype Config = Config(st: State, turns: seq<seq<Label>>, past: seq<Label>)

  predicate Possible(s: State, l: Label) {
    ByOthers(l) && Next(s, l).Some?
  }

  /** The partners take the listed steps that are possible when they come; with the steps taken. */
  function Taken(s: State, ls: seq<Label>): (State, seq<Label>)
    decreases |ls|
  {
    if ls == [] then (s, []) else
    var (t, taken) := Taken(s, ls[..|ls| - 1]);
    var l := ls[|ls| - 1];
    if Possible(t, l) then (Next(t, l).value, taken + [l]) else (t, taken)
  }

  /** The configuration after one turn of the partners. */
  function AfterTurn(c: Config): Config
    requires c.turns != []
  {
    var (t, taken) := Taken(c.st, c.turns[0]);
    Config(t, c.turns[1..], c.past + taken)
  }

  /** Turns are taken until the selecting thread can move, at least one while any is left. */
  function Awaited(c: Config): Config
    decreases |c.turns|
  {
    if c.turns == [] then c
    else if SelectStep(AfterTurn(c).st).Some? then AfterTurn(c)
    else Awaited(AfterTurn(c))
  }

  /** The next step of the selecting thread, if it comes. */
  function Moved(c: Config): Config {
    var d := Awaited(c);
    var t := SelectStep(d.st);
    if t.None? then d else Config(t.value, d.turns, d.past + [Label.Select])
  }

  function Drive(c: Config, n: nat): Config {
    if n == 0 then c else Moved(Drive(c, n - 1))
  }

  /** The schedule leads from c to d. */
  ghost predicate Driven(c: Config, d: Config) {
    exists n: nat :: Drive(c, n) == d
  }

  lemma Undriven(c: Config)
    ensures Drive(c, 0) == c
  {
  }

  lemma PossibleStep(s: State, i: nat)
    ensures Possible(s, Step(i)) <==> PartnerCan(s, i)
    ensures i < |s.g| && s.g[i].ppc.PIdle? ==> !PartnerCan(s, i)
  {
    hide PartnerMove;
  }

  lemma PossibleCall(s: State, i: nat, v: int)
    requires i < |s.g|
    ensures Possible(s, CallPartner(i, v)) <==> s.g[i].ppc.PIdle?
  {
  }

  // ---------- What this means ----------

  /** A turn that lists a possible run of the partners is that run. */
  lemma {:induction false} TakenIsRun(s: State, ls: seq<Label>)
    requires Run(s, ls).Some? && forall n :: 0 <= n < |ls| ==> ByOthers(ls[n])
    ensures Taken(s, ls) == (Run(s, ls).value, ls)
    decreases |ls|
  {
    if ls != [] {
      var front, l := ls[..|ls| - 1], ls[|ls| - 1];
      assert ls == front + [l];
      RunFront(s, front, [l]);
      RunAppend(s, front, [l]);
      TakenIsRun(s, front);
      var t := Run(s, front).value;
      assert Run(t, [l]).Some? ==> Next(t, l).Some? && Run(Next(t, l).value, [l][1..]) == Next(t, l);
    }
  }

  lemma {:induction false} RunFront(s: State, a: seq<Label>, b: seq<Label>)
    requires Run(s, a + b).Some?
    ensures Run(s, a).Some?
    decreases |a|
  {
    if a != [] {
      assert (a + b)[1..] == a[1..] + b;
      RunFront(Next(s, a[0]).value, a[1..], b);
    }
  }

  /** What is taken is a run, and a step that is left out was not possible when it came. */
  lemma {:induction false} TakenRuns(s: State, ls: seq<Label>)
    ensures Run(s, Taken(s, ls).1) == Some(Taken(s, ls).0)
    ensures |Taken(s, ls).1| <= |ls|
    ensures |Taken(s, ls).1| < |ls| <==> exists n :: 0 <= n < |ls| && !Possible(Taken(s, ls[..n]).0, ls[n])
    decreases |ls|
  {
    if ls != [] {
      var front, l := ls[..|ls| - 1], ls[|ls| - 1];
      TakenRuns(s, front);
      var (t, taken) := Taken(s, front);
      if Possible(t, l) { RunSnoc(s, taken, l); }
      assert forall n :: 0 <= n < |front| ==> ls[..n] == front[..n] && ls[n] == front[n];
      assert ls[..|front|] == front;
      hide Possible, Next, Run;
      if |Taken(s, ls).1| < |ls| {
        if Possible(t, l) {
          var n :| 0 <= n < |front| && !Possible(Taken(s, front[..n]).0, front[n]);
          assert !Possible(Taken(s, ls[..n]).0, ls[n]);
        } else {
          assert !Possible(Taken(s, ls[..|front|]).0, ls[|front|]);
        }
      }
      if n :| 0 <= n < |ls| && !Possible(Taken(s, ls[..n]).0, ls[n]) {
        if n < |front| {
          assert !Possible(Taken(s, front[..n]).0, front[n]);
        }
      }
    }
  }

  /** The configuration after the first k turns. */
  function AfterTurns(c: Config, k: nat): Config
    requires k <= |c.turns|
    ensures |AfterTurns(c, k).turns| == |c.turns| - k
    decreases k
  {
    if k == 0 then c else AfterTurns(AfterTurn(c), k - 1)
  }

  /**
   The wait ends after k turns: it is over at the first turn after which the selecting thread can
   move, and if there is none, after all of them.
   */
  lemma {:induction false} AwaitedStopsFirst(c: Config) returns (k: nat)
    ensures k <= |c.turns| && Awaited(c) == AfterTurns(c, k)
    ensures forall j :: 0 < j < k ==> SelectStep(AfterTurns(c, j).st).None?
    ensures k == |c.turns| || (0 < k && SelectStep(AfterTurns(c, k).st).Some?)
    ensures c.turns != [] ==> k > 0
    decreases |c.turns|
  {
    hide SelectStep, Taken;
    if c.turns == [] {
      k := 0;
    } else if SelectStep(AfterTurn(c).st).Some? {
      k := 1;
      assert AfterTurns(c, 1) == AfterTurns(AfterTurn(c), 0);
    } else {
      var m := AwaitedStopsFirst(AfterTurn(c));
      k := m + 1;
      forall j | 0 < j < k ensures SelectStep(AfterTurns(c, j).st).None? {
        assert AfterTurns(c, j) == AfterTurns(AfterTurn(c), j - 1);
      }
    }
  }
}
