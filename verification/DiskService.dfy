/**
 The disk server as its clients and the disk see it: one list of requests, of which the oldest goes
 through the controller and the disk and is then acknowledged.  The scheduler and the queue do not
 occur here; every run of the network is, but for its hidden events, a run of this service.
 */
module DiskService {
  import opened Wrappers
  import D = DiskServer
  import Q = DiskQueue

  /** How far the oldest request has come. */
  datatype Stage = Stored | Given | Started | Interrupted | Reported

  /** Where a client is in ds -> more -> ack. */
  datatype Place = Outside | Told | Waiting

  datatype Service = Service(work: seq<Q.Item>, stage: Stage, clients: seq<Place>)

  /** The events with their values, as they are seen outside. */
  datatype Seen =
    | Ds(r: Q.Item) | MoreOf(i: nat) | Dci(r: Q.Item) | Dio(blk: int) | Dint | Dco(r: Q.Item) | Ack(cl: nat)

  function ServiceStep(v: Service, e: Seen): Option<Service> {
    match e
    case Ds(r) =>
      if r.cl < |v.clients| && v.clients[r.cl] == Outside then
        Some(v.(work := v.work + [r], clients := v.clients[r.cl := Told]))
      else None
    case MoreOf(i) =>
      if i < |v.clients| && v.clients[i] == Told then Some(v.(clients := v.clients[i := Waiting])) else None
    case Dci(r) =>
      if v.work != [] && v.stage == Stored && v.work[0] == r then Some(v.(stage := Given)) else None
    case Dio(blk) =>
      if v.work != [] && v.stage == Given && v.work[0].blk == blk then Some(v.(stage := Started)) else None
    case Dint =>
      if v.work != [] && v.stage == Started then Some(v.(stage := Interrupted)) else None
    case Dco(r) =>
      if v.work != [] && v.stage == Interrupted && v.work[0] == r then Some(v.(stage := Reported)) else None
    case Ack(cl) =>
      if v.work != [] && v.stage == Reported && v.work[0].cl == cl < |v.clients| && v.clients[cl] == Waiting then
        Some(Service(v.work[1..], Stored, v.clients[cl := Outside]))
      else None
  }

  function ServiceRun(v: Service, es: seq<Seen>): Option<Service>
    decreases |es|
  {
    if es == [] then Some(v) else
    var w := ServiceRun(v, es[..|es| - 1]);
    if w.None? then None else ServiceStep(w.value, es[|es| - 1])
  }

  // ---------- Refinement ----------

  /** What the label l shows in the state s; the events of the queue are not seen. */
  function Shown(s: D.Sys, l: D.Label): seq<Seen> {
    match l
    case Ds(i) => if i < |s.clients| && s.clients[i].blocks != [] then [Ds(Q.Item(i, s.clients[i].blocks[0]))] else []
    case MoreOf(i) => [MoreOf(i)]
    case Ack => if s.ds.SendAck? then [Ack(s.ds.r.cl)] else []
    case Dci => if s.ds.SendDci? then [Dci(s.ds.r)] else []
    case Dio => if s.ctl.AtDio? then [Dio(s.ctl.r.blk)] else []
    case Dint => [Dint]
    case Dco => if s.ctl.AtDco? then [Dco(s.ctl.r)] else []
    case Q(_) => []
  }

  /** What a run shows. */
  function Trace(s: D.Sys, ls: seq<D.Label>): seq<Seen>
    decreases |ls|
  {
    if ls == [] then [] else
    var t := D.SysRun(s, ls[..|ls| - 1]);
    Trace(s, ls[..|ls| - 1]) + (if t.Some? then Shown(t.value, ls[|ls| - 1]) else [])
  }

  function PlaceOf(c: D.Client): Place {
    match c.pc
    case Between => Outside
    case More => Told
    case WaitAck => Waiting
  }

  function StageOf(s: D.Sys): Stage {
    if s.ds.SendAck? then Reported
    else match s.ctl
         case AtDci => Stored
         case AtDio(_) => Given
         case AtDint(_) => Started
         case AtDco(_) => Interrupted
  }

  function Places(clients: seq<D.Client>): seq<Place> {
    seq(|clients|, i requires 0 <= i < |clients| => PlaceOf(clients[i]))
  }

  /** The service that the network is. */
  function View(s: D.Sys): Service {
    Service(D.Pipeline(s), StageOf(s), Places(s.clients))
  }

  lemma QueueIsHidden(s: D.Sys, e: Q.Event)
    requires D.Phases(s) && D.SysNext(s, D.Q(e)).Some?
    ensures View(D.SysNext(s, D.Q(e)).value) == View(s)
  {
    D.QueueMovesPipeline(s, e);
    assert Q.Hidden(e) || !s.ds.SendAck?;
    hide D.Pipeline, Q.Step;
  }

  lemma PlacesUpdate(clients: seq<D.Client>, i: nat, c: D.Client)
    requires i < |clients|
    ensures Places(clients[i := c]) == Places(clients)[i := PlaceOf(c)]
  {
  }

  lemma TellSteps(s: D.Sys, l: D.Label)
    requires D.SysInv(s) && D.SysNext(s, l).Some? && (l.Ds? || l.MoreOf?)
    ensures |Shown(s, l)| == 1 && ServiceStep(View(s), Shown(s, l)[0]) == Some(View(D.SysNext(s, l).value))
  {
    var t := D.SysNext(s, l).value;
    D.StepMovesPipeline(s, l);
    PlacesUpdate(s.clients, l.i, t.clients[l.i]);
    hide D.Pipeline, D.SysInv, Places;
  }

  lemma AckSteps(s: D.Sys, l: D.Label)
    requires D.SysInv(s) && D.SysNext(s, l).Some? && l.Ack?
    ensures |Shown(s, l)| == 1 && ServiceStep(View(s), Shown(s, l)[0]) == Some(View(D.SysNext(s, l).value))
  {
    var t := D.SysNext(s, l).value;
    D.StepMovesPipeline(s, l);
    PlacesUpdate(s.clients, s.ds.r.cl, t.clients[s.ds.r.cl]);
    assert D.Pipeline(s)[0] == s.ds.r && s.ctl.AtDci? && t.ctl.AtDci?;
    hide D.Pipeline, D.SysInv, Places;
  }

  lemma ControllerSteps(s: D.Sys, l: D.Label)
    requires D.SysInv(s) && D.SysNext(s, l).Some? && (l.Dio? || l.Dint?)
    ensures |Shown(s, l)| == 1 && ServiceStep(View(s), Shown(s, l)[0]) == Some(View(D.SysNext(s, l).value))
  {
    D.StepMovesPipeline(s, l);
    D.StepMovesClient(s, l);
    assert D.Pipeline(s) != [] && D.Pipeline(s)[0] == s.ctl.r;
    hide D.Pipeline;
  }

  lemma SchedulerSteps(s: D.Sys, l: D.Label)
    requires D.SysInv(s) && D.SysNext(s, l).Some? && (l.Dci? || l.Dco?)
    ensures |Shown(s, l)| == 1 && ServiceStep(View(s), Shown(s, l)[0]) == Some(View(D.SysNext(s, l).value))
  {
    D.StepMovesPipeline(s, l);
    D.StepMovesClient(s, l);
    assert D.Pipeline(s) != [] && D.Pipeline(s)[0] == (if s.ds.SendDci? then s.ds.r else s.ctl.r);
    hide D.Pipeline;
  }

  /** Every event of the network is a step of the service, or shows nothing and changes nothing there. */
  lemma StepRefines(s: D.Sys, l: D.Label)
    requires D.SysInv(s) && D.SysNext(s, l).Some?
    ensures var v, w := View(s), View(D.SysNext(s, l).value);
            if l.Q? then Shown(s, l) == [] && w == v
            else |Shown(s, l)| == 1 && ServiceStep(v, Shown(s, l)[0]) == Some(w)
  {
    if l.Q? {
      QueueIsHidden(s, l.e);
    } else if l.Ds? || l.MoreOf? {
      TellSteps(s, l);
    } else if l.Ack? {
      AckSteps(s, l);
    } else if l.Dio? || l.Dint? {
      ControllerSteps(s, l);
    } else {
      SchedulerSteps(s, l);
    }
    hide D.SysNext, View, ServiceStep;
  }

  lemma TraceSnoc(s: D.Sys, front: seq<D.Label>, l: D.Label)
    requires D.SysRun(s, front).Some?
    ensures Trace(s, front + [l]) == Trace(s, front) + Shown(D.SysRun(s, front).value, l)
  {
    assert (front + [l])[..|front|] == front;
    hide Shown, D.SysRun;
  }

  lemma {:induction false} RunRefinesFrom(s: D.Sys, ls: seq<D.Label>)
    requires D.SysInv(s) && D.SysRun(s, ls).Some?
    ensures D.SysInv(D.SysRun(s, ls).value)
    ensures ServiceRun(View(s), Trace(s, ls)) == Some(View(D.SysRun(s, ls).value))
    decreases |ls|
  {
    hide D.SysInv, D.SysNext, View, Shown, ServiceStep;
    if ls != [] {
      var front, l := ls[..|ls| - 1], ls[|ls| - 1];
      assert ls == front + [l];
      RunFront(s, front, [l]);
      D.RunSnoc(s, front, l);
      RunRefinesFrom(s, front);
      var t := D.SysRun(s, front).value;
      D.StepKeepsInv(t, l);
      StepRefines(t, l);
      TraceSnoc(s, front, l);
      var es := Trace(s, front);
      if l.Q? {
        assert es + Shown(t, l) == es;
      } else {
        assert (es + Shown(t, l))[..|es|] == es;
      }
    } else {
      assert Trace(s, ls) == [];
    }
  }

  lemma {:induction false} RunFront(s: D.Sys, a: seq<D.Label>, b: seq<D.Label>)
    requires D.SysRun(s, a + b).Some?
    ensures D.SysRun(s, a).Some?
    decreases |a|
  {
    hide D.SysNext;
    if a != [] {
      assert (a + b)[1..] == a[1..] + b;
      RunFront(D.SysNext(s, a[0]).value, a[1..], b);
    }
  }

  function Start(n: nat): Service {
    Service([], Stored, seq(n, _ => Outside))
  }

  /** On every run, what is seen of the network is a run of the service, and leaves it as the network is. */
  lemma RunRefines(scripts: seq<seq<int>>, ls: seq<D.Label>)
    requires D.SysRun(D.Init(scripts), ls).Some?
    ensures var s := D.SysRun(D.Init(scripts), ls).value;
            ServiceRun(Start(|scripts|), Trace(D.Init(scripts), ls)) == Some(View(s))
  {
    D.InitOk(scripts);
    assert View(D.Init(scripts)) == Start(|scripts|);
    hide D.SysInv;
    RunRefinesFrom(D.Init(scripts), ls);
  }

  // ---------- What the disk has done ----------

  function Asked(es: seq<Seen>): seq<Q.Item> {
    if es == [] then []
    else Asked(es[..|es| - 1]) + (if es[|es| - 1].Ds? then [es[|es| - 1].r] else [])
  }

  function Blocks(xs: seq<Q.Item>): seq<int> {
    seq(|xs|, i requires 0 <= i < |xs| => xs[i].blk)
  }

  function Owners(xs: seq<Q.Item>): seq<nat> {
    seq(|xs|, i requires 0 <= i < |xs| => xs[i].cl)
  }

  function Read(es: seq<Seen>): seq<int> {
    if es == [] then []
    else Read(es[..|es| - 1]) + (if es[|es| - 1].Dio? then [es[|es| - 1].blk] else [])
  }

  function Interrupts(es: seq<Seen>): nat {
    if es == [] then 0 else Interrupts(es[..|es| - 1]) + (if es[|es| - 1].Dint? then 1 else 0)
  }

  function Acked(es: seq<Seen>): seq<nat> {
    if es == [] then []
    else Acked(es[..|es| - 1]) + (if es[|es| - 1].Ack? then [es[|es| - 1].cl] else [])
  }

  /** The disk has been started for the oldest request. */
  function Begun(st: Stage): nat {
    if st.Started? || st.Interrupted? || st.Reported? then 1 else 0
  }

  /** The disk has been through with the oldest request. */
  function Over(st: Stage): nat {
    if st.Interrupted? || st.Reported? then 1 else 0
  }

  ghost predicate Counted(es: seq<Seen>, v: Service) {
    var asked, acked := Asked(es), Acked(es);
    && |acked| <= |asked| && v.work == asked[|acked|..]
    && acked == Owners(asked)[..|acked|]
    && |acked| + Begun(v.stage) <= |asked|
    && Read(es) == Blocks(asked)[..|acked| + Begun(v.stage)]
    && Interrupts(es) == |acked| + Over(v.stage)
    && (v.work == [] ==> v.stage == Stored)
  }

  lemma AskCounts(es: seq<Seen>, v: Service, e: Seen)
    requires Counted(es, v) && ServiceStep(v, e).Some? && e.Ds?
    ensures Counted(es + [e], ServiceStep(v, e).value)
  {
    assert (es + [e])[..|es|] == es;
    var asked := Asked(es);
    assert Blocks(asked + [e.r]) == Blocks(asked) + [e.r.blk] && Owners(asked + [e.r]) == Owners(asked) + [e.r.cl];
  }

  lemma AckCounts(es: seq<Seen>, v: Service, e: Seen)
    requires Counted(es, v) && ServiceStep(v, e).Some? && e.Ack?
    ensures Counted(es + [e], ServiceStep(v, e).value)
  {
    assert (es + [e])[..|es|] == es;
    assert v.work[0] == Asked(es)[|Acked(es)|];
  }

  lemma StepCounts(es: seq<Seen>, v: Service, e: Seen)
    requires Counted(es, v) && ServiceStep(v, e).Some?
    ensures Counted(es + [e], ServiceStep(v, e).value)
  {
    if e.Ds? {
      AskCounts(es, v, e);
    } else if e.Ack? {
      AckCounts(es, v, e);
    } else {
      assert (es + [e])[..|es|] == es;
      if v.work != [] { assert v.work[0] == Asked(es)[|Acked(es)|]; }
    }
  }

  lemma {:induction false} RunCounts(n: nat, es: seq<Seen>)
    requires ServiceRun(Start(n), es).Some?
    ensures Counted(es, ServiceRun(Start(n), es).value)
    decreases |es|
  {
    if es != [] {
      var front := es[..|es| - 1];
      RunCounts(n, front);
      StepCounts(front, ServiceRun(Start(n), front).value, es[|es| - 1]);
      assert front + [es[|es| - 1]] == es;
    }
  }

  /**
   On every run of the network the disk is started with the blocks of the requests in the order of
   their ds events, once for each, with one interrupt each before the next; requests are acknowledged
   in the same order, each after its own interrupt; and the counts differ by what the stage of the
   oldest request says.
   */
  lemma DiskServesEachOnce(scripts: seq<seq<int>>, ls: seq<D.Label>)
    requires D.SysRun(D.Init(scripts), ls).Some?
    ensures var es := Trace(D.Init(scripts), ls);
            var stage := StageOf(D.SysRun(D.Init(scripts), ls).value);
            && Read(es) <= Blocks(Asked(es)) && Acked(es) <= Owners(Asked(es))
            && Interrupts(es) == |Acked(es)| + Over(stage)
            && |Read(es)| == |Acked(es)| + Begun(stage)
            && |Acked(es)| <= Interrupts(es) <= |Read(es)| <= |Asked(es)|
  {
    RunRefines(scripts, ls);
    RunCounts(|scripts|, Trace(D.Init(scripts), ls));
  }
}
