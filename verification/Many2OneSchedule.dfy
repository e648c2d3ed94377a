/**
 What a schedule makes of Many2OneChannel while one thread is in its call: before each step of that
 thread the others take whole turns of listed steps, as far as these are possible, until it can move.
 */
module Many2OneSchedule {
  import opened Many2One
  import opened Many2OneTheorems

  /** wake: the writer that the reader's signal wakes, if its turn comes to signal. */
  datatype Turn = Turn(others: seq<Label>, wake: nat)

  /** The thread that the schedule is for. */
  datatype Who = Reading | Writing(i: nat)

  datatype Config = Config(st: State, turns: seq<Turn>, past: seq<Label>)

  predicate NotWriter(l: Label, i: nat) {
    l.Write? || l.CallWrite? ==> l.i != i
  }

  predicate NotReader(l: Label) {
    !l.Read? && !l.CallRead?
  }

  predicate ByOther(who: Who, l: Label) {
    if who.Reading? then NotReader(l) else NotWriter(l, who.i)
  }

  predicate Possible(who: Who, s: State, l: Label) {
    ByOther(who, l) && Can(s, l)
  }

  /** The others take the listed steps that are possible when they come; with the steps taken. */
  function Taken(who: Who, s: State, ls: seq<Label>): (State, seq<Label>)
    decreases |ls|
  {
    if ls == [] then (s, []) else
    var (t, taken) := Taken(who, s, ls[..|ls| - 1]);
    var l := ls[|ls| - 1];
    if Possible(who, t, l) then (Next(t, l), taken + [l]) else (t, taken)
  }

  function AfterTurn(who: Who, c: Config): Config
    requires c.turns != []
  {
    var (t, taken) := Taken(who, c.st, c.turns[0].others);
    Config(t, c.turns[1..], c.past + taken)
  }

  /** The thread's own step. */
  function Own(who: Who, wake: nat): Label {
    if who.Reading? then Read(wake) else Write(who.i)
  }

  function Attempt(who: Who, c: Config, wake: nat): Config {
    var l := Own(who, wake);
    if Can(c.st, l) then Config(Next(c.st, l), c.turns, c.past + [l]) else c
  }

  /** The first writer at or after k that sleeps; 0 if there is none. */
  function FirstAsleep(w: seq<Writer>, k: nat): nat
    decreases |w| - k
  {
    if k >= |w| then 0 else if w[k].pc.WAsleep? then k else FirstAsleep(w, k + 1)
  }

  /** The next step of the thread, after the first turn that makes it possible, or after all of them. */
  function Moved(who: Who, c: Config): Config
    decreases |c.turns|
  {
    if c.turns == [] then Attempt(who, c, FirstAsleep(c.st.w, 0)) else
    var d := AfterTurn(who, c);
    if Can(d.st, Own(who, c.turns[0].wake)) then Attempt(who, d, c.turns[0].wake) else Moved(who, d)
  }

  function Drive(who: Who, c: Config, n: nat): Config {
    if n == 0 then c else Moved(who, Drive(who, c, n - 1))
  }

  /** The schedule leads from c to d. */
  ghost predicate Driven(who: Who, c: Config, d: Config) {
    exists n: nat :: Drive(who, c, n) == d
  }

  lemma Undriven(who: Who, c: Config)
    ensures Drive(who, c, 0) == c
  {
  }

  /** One turn of the others, and the thread's step if that makes it possible. */
  lemma MovedTurn(who: Who, c: Config)
    requires c.turns != []
    ensures var d, l := AfterTurn(who, c), Own(who, c.turns[0].wake);
            Moved(who, c) == if Can(d.st, l) then Config(Next(d.st, l), d.turns, d.past + [l]) else Moved(who, d)
  {
    hide Taken, Can, Next;
  }

  lemma MovedLast(who: Who, c: Config)
    requires c.turns == []
    ensures var l := Own(who, FirstAsleep(c.st.w, 0));
            Moved(who, c) == if Can(c.st, l) then Config(Next(c.st, l), c.turns, c.past + [l]) else c
  {
    hide Can, Next;
  }

  // ---------- What this means ----------

  lemma {:induction false} RunSplit(s: State, a: seq<Label>, l: Label, t: State)
    requires Run(s, a + [l], t)
    ensures exists u: State :: Run(s, a, u) && Can(u, l) && t == Next(u, l)
    decreases |a|
  {
    hide Next, Can;
    if a == [] {
      assert (a + [l])[1..] == [];
      assert Run(s, a, s);
    } else {
      assert (a + [l])[1..] == a[1..] + [l];
      RunSplit(Next(s, a[0]), a[1..], l, t);
      var u: State :| Run(Next(s, a[0]), a[1..], u) && Can(u, l) && t == Next(u, l);
      assert Run(s, a, u);
    }
  }

  /** A turn that lists a possible run of the others is that run. */
  lemma {:induction false} TakenIsRun(who: Who, s: State, ls: seq<Label>, t: State)
    requires Run(s, ls, t) && forall n :: 0 <= n < |ls| ==> ByOther(who, ls[n])
    ensures Taken(who, s, ls) == (t, ls)
    decreases |ls|
  {
    hide Next, Can;
    if ls != [] {
      var front, l := ls[..|ls| - 1], ls[|ls| - 1];
      assert ls == front + [l];
      RunSplit(s, front, l, t);
      var u: State :| Run(s, front, u) && Can(u, l) && t == Next(u, l);
      TakenIsRun(who, s, front, u);
    }
  }

  /** What is taken is a run, and a step that is left out was not possible when it came. */
  lemma {:induction false} TakenRuns(who: Who, s: State, ls: seq<Label>)
    ensures Run(s, Taken(who, s, ls).1, Taken(who, s, ls).0)
    ensures |Taken(who, s, ls).1| <= |ls|
    ensures (forall n :: 0 <= n < |ls| ==> Possible(who, Taken(who, s, ls[..n]).0, ls[n]))
            ==> Taken(who, s, ls).1 == ls
    decreases |ls|
  {
    hide Next, Can;
    if ls != [] {
      var front, l := ls[..|ls| - 1], ls[|ls| - 1];
      TakenRuns(who, s, front);
      var (t, taken) := Taken(who, s, front);
      if Possible(who, t, l) { RunAppend(s, taken, t, l); }
      assert ls[..|front|] == front && ls == front + [l];
      if forall n :: 0 <= n < |ls| ==> Possible(who, Taken(who, s, ls[..n]).0, ls[n]) {
        forall n | 0 <= n < |front| ensures Possible(who, Taken(who, s, front[..n]).0, front[n]) {
          assert ls[..n] == front[..n] && ls[n] == front[n];
        }
      }
    }
  }

  /** The configuration after the first k turns of the others. */
  function AfterTurns(who: Who, c: Config, k: nat): Config
    requires k <= |c.turns|
    ensures |AfterTurns(who, c, k).turns| == |c.turns| - k
    decreases k
  {
    if k == 0 then c else AfterTurns(who, AfterTurn(who, c), k - 1)
  }

  /** The step comes after the first turn that makes it possible, and if none does, after the last. */
  lemma {:induction false} MovedStopsFirst(who: Who, c: Config) returns (k: nat)
    ensures k <= |c.turns|
    ensures forall j :: 0 < j < k ==> !Can(AfterTurns(who, c, j).st, Own(who, c.turns[j - 1].wake))
    ensures var d := AfterTurns(who, c, k);
            || (0 < k && Can(d.st, Own(who, c.turns[k - 1].wake))
                && Moved(who, c) == Attempt(who, d, c.turns[k - 1].wake))
            || (k == |c.turns| && Moved(who, c) == Attempt(who, d, FirstAsleep(d.st.w, 0)))
    decreases |c.turns|
  {
    hide Taken, Can, Next, FirstAsleep, Attempt;
    if c.turns == [] {
      k := 0;
    } else if Can(AfterTurn(who, c).st, Own(who, c.turns[0].wake)) {
      k := 1;
      assert AfterTurns(who, c, 1) == AfterTurns(who, AfterTurn(who, c), 0);
    } else {
      var m := MovedStopsFirst(who, AfterTurn(who, c));
      k := m + 1;
      forall j | 0 < j < k ensures !Can(AfterTurns(who, c, j).st, Own(who, c.turns[j - 1].wake)) {
        assert AfterTurns(who, c, j) == AfterTurns(who, AfterTurn(who, c), j - 1);
        assert c.turns[j - 1] == (if j == 1 then c.turns[0] else c.turns[1..][j - 2]);
        if j == 1 { assert AfterTurns(who, AfterTurn(who, c), 0) == AfterTurn(who, c); }
      }
      assert AfterTurns(who, c, k) == AfterTurns(who, AfterTurn(who, c), m);
    }
  }
}
