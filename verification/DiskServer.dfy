/**
 The disk server: scheduler, queue, controller, simulated disk, and any number of clients
 each of which repeats ds!i.block -> more -> ack.i over its own list of blocks.
 */
module DiskServer {
  import opened Wrappers
  import opened Sums
  import opened DiskQueue

  datatype Scheduler =
    | Idle               // DS_idle
    | SendDci(r: Item)   // dci!r -> DS_busy
    | Busy               // DS_busy
    | SendAck(r: Item)   // ack.cl -> DS_check
    | SendEnq(r: Item)   // enq!r -> DS_busy
    | Check              // DS_check
    | Await              // empty -> DS_idle [] next?r -> dci!r -> DS_busy

  datatype Controller = AtDci | AtDio(r: Item) | AtDint(r: Item) | AtDco(r: Item)

  datatype Disk = AtRest | Working

  datatype ClientPc = Between | More | WaitAck

  datatype Client = Client(blocks: seq<int>, pc: ClientPc)

  datatype Sys = Sys(
    ds: Scheduler, q: Queue, ctl: Controller, disk: Disk, clients: seq<Client>,
    accepted: seq<Item>,     // history: the requests of the ds events
    acked: seq<nat>)         // history: the clients of the ack events

  function Init(scripts: seq<seq<int>>): Sys {
    Sys(Idle, START, AtDci, AtRest,
        seq(|scripts|, i requires 0 <= i < |scripts| => Client(scripts[i], Between)), [], [])
  }

  datatype Label = Ds(i: nat) | MoreOf(i: nat) | Ack | Dci | Dio | Dint | Dco | Q(e: Event)

  predicate Alphabet(e: Event) {
    e.Enq? || e.Deq? || e.Empty? || e.Next?
  }

  function PutClient(s: Sys, i: nat, c: Client): Sys
    requires i < |s.clients|
  {
    s.(clients := s.clients[i := c])
  }

  /** The scheduler's part in an event that it shares with the queue. */
  function SchedulerStep(d: Scheduler, e: Event): Option<Scheduler> {
    match e
    case Enq(x) => if d == SendEnq(x) then Some(Busy) else None
    case Deq => if d.Check? then Some(Await) else None
    case Empty => if d.Await? then Some(Idle) else None
    case Next(x) => if d.Await? then Some(SendDci(x)) else None
    case _ => Some(d)
  }

  function SysNext(s: Sys, l: Label): Option<Sys> {
    match l
    case Ds(i) =>
      if i >= |s.clients| || !s.clients[i].pc.Between? || s.clients[i].blocks == [] then None else
      var r := Item(i, s.clients[i].blocks[0]);
      var t := PutClient(s, i, Client(s.clients[i].blocks[1..], More)).(accepted := s.accepted + [r]);
      if s.ds.Idle? then Some(t.(ds := SendDci(r)))
      else if s.ds.Busy? then Some(t.(ds := SendEnq(r)))
      else None
    case MoreOf(i) =>
      if i >= |s.clients| || !s.clients[i].pc.More? then None
      else Some(PutClient(s, i, s.clients[i].(pc := WaitAck)))
    case Ack =>
      if !s.ds.SendAck? || s.ds.r.cl >= |s.clients| || !s.clients[s.ds.r.cl].pc.WaitAck? then None
      else
        var t := PutClient(s, s.ds.r.cl, s.clients[s.ds.r.cl].(pc := Between));
        Some(t.(ds := Check, acked := s.acked + [s.ds.r.cl]))
    case Dci =>
      if s.ds.SendDci? && s.ctl.AtDci? then Some(s.(ds := Busy, ctl := AtDio(s.ds.r))) else None
    case Dio =>
      if s.ctl.AtDio? && s.disk.AtRest? then Some(s.(ctl := AtDint(s.ctl.r), disk := Working)) else None
    case Dint =>
      if s.ctl.AtDint? && s.disk.Working? then Some(s.(ctl := AtDco(s.ctl.r), disk := AtRest)) else None
    case Dco =>
      if s.ds.Busy? && s.ctl.AtDco? then Some(s.(ds := SendAck(s.ctl.r), ctl := AtDci)) else None
    case Q(e) =>
      var d := SchedulerStep(s.ds, e);
      var q := Step(s.q, e);
      if d.None? || q.None? then None else Some(s.(ds := d.value, q := q.value))
  }

  function SysRun(s: Sys, ls: seq<Label>): Option<Sys>
    decreases |ls|
  {
    if ls == [] then Some(s) else
    var t := SysNext(s, ls[0]);
    if t.None? then None else SysRun(t.value, ls[1..])
  }

  ghost predicate Reachable(s: Sys) {
    exists scripts: seq<seq<int>>, ls: seq<Label> :: SysRun(Init(scripts), ls) == Some(s)
  }

  // ---------- Where the accepted requests are ----------

  function InController(c: Controller): seq<Item> {
    if c.AtDci? then [] else [c.r]
  }

  /** The requests accepted and not acknowledged, oldest first. */
  function Pipeline(s: Sys): seq<Item> {
    (match s.ds case SendDci(r) => [r] case SendAck(r) => [r] case _ => InController(s.ctl))
    + View(s.q).s
    + (if s.ds.SendEnq? then [s.ds.r] else [])
  }

  predicate Phases(s: Sys) {
    && Inv(s.q)
    && (s.ds.Busy? || s.ds.SendEnq? <==> !s.ctl.AtDci?)
    && (s.ctl.AtDint? <==> s.disk.Working?)
    && (s.ds.Await? <==> View(s.q).Asked?)
    && (s.ds.Idle? ==> View(s.q) == Ready([]))
  }

  /** Acknowledgements follow acceptance order and name the client of their request. */
  predicate Order(s: Sys) {
    && |s.acked| <= |s.accepted|
    && Pipeline(s) == s.accepted[|s.acked|..]
    && forall k :: 0 <= k < |s.acked| ==> s.acked[k] == s.accepted[k].cl
  }

  /** A client has a request in p exactly while it is between its ds and its ack, and then only one. */
  predicate Owns(p: seq<Item>, clients: seq<Client>) {
    && (forall k :: 0 <= k < |p| ==> p[k].cl < |clients| && !clients[p[k].cl].pc.Between?)
    && (forall j, k :: 0 <= j < k < |p| ==> p[j].cl != p[k].cl)
    && (forall i :: 0 <= i < |clients| && !clients[i].pc.Between? ==> exists k :: 0 <= k < |p| && p[k].cl == i)
  }

  predicate Owners(s: Sys) {
    Owns(Pipeline(s), s.clients)
  }

  predicate SysInv(s: Sys) {
    Phases(s) && Order(s) && Owners(s)
  }

  lemma InitOk(scripts: seq<seq<int>>)
    ensures SysInv(Init(scripts))
  {
  }

  lemma StepKeepsPhases(s: Sys, l: Label)
    requires Phases(s) && SysNext(s, l).Some?
    ensures Phases(SysNext(s, l).value)
  {
    if l.Q? {
      StepKeeps(s.q, l.e);
      StepRefines(s.q, l.e);
      hide Step, View, Inv;
    }
  }

  lemma QueueMovesPipeline(s: Sys, e: Event)
    requires Phases(s) && SysNext(s, Q(e)).Some?
    ensures Pipeline(SysNext(s, Q(e)).value) == Pipeline(s)
  {
    StepRefines(s.q, e);
    hide Step, View, Inv;
    if e.Next? {
      assert View(s.q).s == [e.x] + View(SysNext(s, Q(e)).value.q).s;
    }
  }

  /** What each step does to the pipeline: ds appends, ack removes the oldest, the others move requests along. */
  lemma StepMovesPipeline(s: Sys, l: Label)
    requires Phases(s) && SysNext(s, l).Some?
    ensures var t := SysNext(s, l).value;
            match l
            case Ds(i) => t.accepted == s.accepted + [Item(i, s.clients[i].blocks[0])]
                && Pipeline(t) == Pipeline(s) + [Item(i, s.clients[i].blocks[0])] && t.acked == s.acked
            case Ack => Pipeline(s) != [] && Pipeline(t) == Pipeline(s)[1..]
                && t.acked == s.acked + [Pipeline(s)[0].cl] && t.accepted == s.accepted
            case _ => Pipeline(t) == Pipeline(s) && t.accepted == s.accepted && t.acked == s.acked
  {
    if l.Q? { QueueMovesPipeline(s, l.e); }
    hide Step, SchedulerStep, View, FifoStep;
  }

  lemma StepKeepsOrder(s: Sys, l: Label)
    requires Phases(s) && Order(s) && SysNext(s, l).Some?
    ensures Order(SysNext(s, l).value)
  {
    StepMovesPipeline(s, l);
    hide SysNext, Pipeline;
  }

  lemma OwnsMore(p: seq<Item>, clients: seq<Client>, r: Item, c: Client)
    requires Owns(p, clients) && r.cl < |clients| && clients[r.cl].pc.Between? && !c.pc.Between?
    ensures Owns(p + [r], clients[r.cl := c])
  {
    var q, more := p + [r], clients[r.cl := c];
    forall i | 0 <= i < |more| && !more[i].pc.Between? ensures exists k :: 0 <= k < |q| && q[k].cl == i {
      if i == r.cl {
        assert q[|p|].cl == i;
      } else {
        var k :| 0 <= k < |p| && p[k].cl == i;
        assert q[k].cl == i;
      }
    }
  }

  lemma OwnsLess(p: seq<Item>, clients: seq<Client>, c: Client)
    requires Owns(p, clients) && p != [] && c.pc.Between?
    ensures Owns(p[1..], clients[p[0].cl := c])
  {
    var q, less := p[1..], clients[p[0].cl := c];
    forall i | 0 <= i < |less| && !less[i].pc.Between? ensures exists k :: 0 <= k < |q| && q[k].cl == i {
      var k :| 0 <= k < |p| && p[k].cl == i;
      assert q[k - 1].cl == i;
    }
  }

  lemma OwnsSame(p: seq<Item>, clients: seq<Client>, i: nat, c: Client)
    requires Owns(p, clients) && i < |clients| && c.pc.Between? == clients[i].pc.Between?
    ensures Owns(p, clients[i := c])
  {
  }

  /** The one client that an event moves. */
  lemma StepMovesClient(s: Sys, l: Label)
    requires SysNext(s, l).Some?
    ensures var t := SysNext(s, l).value;
            match l
            case Ds(i) => i < |s.clients| && s.clients[i].pc.Between? && s.clients[i].blocks != []
                && t.clients == s.clients[i := Client(s.clients[i].blocks[1..], More)]
            case MoreOf(i) => i < |s.clients| && s.clients[i].pc.More?
                && t.clients == s.clients[i := s.clients[i].(pc := WaitAck)]
            case Ack => s.ds.SendAck? && s.ds.r.cl < |s.clients|
                && t.clients == s.clients[s.ds.r.cl := s.clients[s.ds.r.cl].(pc := Between)]
            case _ => t.clients == s.clients
  {
    hide Step, SchedulerStep;
  }

  lemma StepKeepsOwners(s: Sys, l: Label)
    requires Phases(s) && Owners(s) && SysNext(s, l).Some?
    ensures Owners(SysNext(s, l).value)
  {
    var p := Pipeline(s);
    StepMovesPipeline(s, l);
    StepMovesClient(s, l);
    assert l.Ack? ==> p[0].cl == s.ds.r.cl;
    hide Pipeline, Phases, Owns, SysNext;
    match l
    case Ds(i) => OwnsMore(p, s.clients, Item(i, s.clients[i].blocks[0]), Client(s.clients[i].blocks[1..], More));
    case Ack => OwnsLess(p, s.clients, s.clients[s.ds.r.cl].(pc := Between));
    case MoreOf(i) => OwnsSame(p, s.clients, i, s.clients[i].(pc := WaitAck));
    case _ =>
  }

  lemma StepKeepsInv(s: Sys, l: Label)
    requires SysInv(s) && SysNext(s, l).Some?
    ensures SysInv(SysNext(s, l).value)
  {
    hide Phases, Order, Owners, SysNext;
    StepKeepsPhases(s, l);
    StepKeepsOrder(s, l);
    StepKeepsOwners(s, l);
  }

  lemma {:induction false} RunKeepsInv(s: Sys, ls: seq<Label>)
    requires SysInv(s) && SysRun(s, ls).Some?
    ensures SysInv(SysRun(s, ls).value)
    decreases |ls|
  {
    hide SysInv, SysNext;
    if ls != [] {
      StepKeepsInv(s, ls[0]);
      RunKeepsInv(SysNext(s, ls[0]).value, ls[1..]);
    }
  }

  lemma ReachableInv(s: Sys)
    requires Reachable(s)
    ensures SysInv(s)
  {
    var scripts, ls :| SysRun(Init(scripts), ls) == Some(s);
    InitOk(scripts);
    hide SysInv;
    RunKeepsInv(Init(scripts), ls);
  }

  // ---------- Order ----------

  /**
   On every run the requests are acknowledged in the order in which they were accepted, each one
   once and with the number of its own client; the rest, in the same order, are in service, in the
   queue, or on their way into it.
   */
  lemma ServedInOrder(s: Sys)
    requires Reachable(s)
    ensures |s.acked| <= |s.accepted|
    ensures forall k :: 0 <= k < |s.acked| ==> s.acked[k] == s.accepted[k].cl
    ensures Pipeline(s) == s.accepted[|s.acked|..]
    ensures |Pipeline(s)| <= 4
  {
    ReachableInv(s);
    StoredAtMostTwo(s.q);
  }

  lemma StoredAtMostTwo(q: Queue)
    requires Inv(q)
    ensures |View(q).s| <= 2
  {
  }

  // ---------- Deadlock ----------

  /** Four requests are unacknowledged: one at the controller, two in the queue, one at the scheduler. */
  predicate Overfull(s: Sys) {
    |Pipeline(s)| == 4
  }

  lemma OverfullShape(s: Sys)
    requires Reachable(s)
    ensures Overfull(s) <==> s.ds.SendEnq? && |View(s.q).s| == 2
  {
    ReachableInv(s);
    StoredAtMostTwo(s.q);
  }

  predicate Finished(s: Sys) {
    && s.ds.Idle? && s.q == START && s.ctl.AtDci? && s.disk.AtRest?
    && forall i :: 0 <= i < |s.clients| ==> s.clients[i] == Client([], Between)
  }

  ghost predicate Stuck(s: Sys) {
    forall l :: SysNext(s, l).None?
  }

  /** An unstable queue has a hidden event, whatever the scheduler does. */
  lemma UnstableMoves(s: Sys)
    requires !Stable(s.q)
    ensures !Stuck(s)
  {
    var e :| e in {LeftE, ShiftA, ShiftB, Comm, Right} && Step(s.q, e).Some?;
    assert SysNext(s, Q(e)).Some?;
  }

  lemma StuckQueueOffers(s: Sys, e: Event)
    requires Reachable(s) && Stuck(s) && Alphabet(e)
    ensures SchedulerStep(s.ds, e).Some? ==> FifoStep(View(s.q), e).None?
  {
    ReachableInv(s);
    if !Stable(s.q) { UnstableMoves(s); }
    StableOffers(s.q, e);
    assert SysNext(s, Q(e)).None?;
  }

  lemma StuckController(s: Sys)
    requires Reachable(s) && Stuck(s)
    ensures s.ctl.AtDci? || (s.ctl.AtDco? && s.ds.SendEnq?)
  {
    ReachableInv(s);
    var dio, dint, dco := SysNext(s, Dio), SysNext(s, Dint), SysNext(s, Dco);
    assert dio.None? && dint.None? && dco.None?;
  }

  lemma StuckScheduler(s: Sys)
    requires Reachable(s) && Stuck(s)
    ensures s.ds.Idle? || Overfull(s)
  {
    ReachableInv(s);
    StuckController(s);
    match s.ds
    case Idle =>
    case SendDci(r) => var moves := SysNext(s, Dci);
    case Busy =>
    case SendAck(r) =>
      assert Pipeline(s)[0] == r;
      var moves := SysNext(s, if s.clients[r.cl].pc.More? then MoreOf(r.cl) else Ack);
    case SendEnq(r) => StuckQueueOffers(s, Enq(r)); StoredAtMostTwo(s.q);
    case Check => StuckQueueOffers(s, Deq);
    case Await =>
      if View(s.q).s == [] { StuckQueueOffers(s, Empty); } else { StuckQueueOffers(s, Event.Next(View(s.q).s[0])); }
  }

  lemma EmptyQueueIsStart(q: Queue)
    requires Inv(q) && View(q) == Ready([])
    ensures q == START
  {
  }

  /** A state in which nothing can move is either finished or overfull. */
  lemma StuckIsFinishedOrOverfull(s: Sys)
    requires Reachable(s) && Stuck(s)
    ensures Finished(s) || Overfull(s)
  {
    ReachableInv(s);
    StuckScheduler(s);
    if !Overfull(s) {
      EmptyQueueIsStart(s.q);
      StuckController(s);
      assert Pipeline(s) == [];
      forall i | 0 <= i < |s.clients| ensures s.clients[i] == Client([], Between) {
        var ds, more := SysNext(s, Ds(i)), SysNext(s, MoreOf(i));
        assert ds.None? && more.None?;
      }
    }
  }

  /** An overfull server never acknowledges again, whatever happens. */
  lemma OverfullStays(s: Sys, l: Label)
    requires Reachable(s) && Overfull(s) && SysNext(s, l).Some?
    ensures Overfull(SysNext(s, l).value) && SysNext(s, l).value.acked == s.acked
  {
    OverfullShape(s);
    ReachableInv(s);
    StepMovesPipeline(s, l);
    hide Pipeline;
  }

  lemma {:induction false} DistinctOwners(p: seq<Item>, n: nat) returns (owners: set<nat>)
    requires forall k :: 0 <= k < |p| ==> p[k].cl < n
    requires forall j, k :: 0 <= j < k < |p| ==> p[j].cl != p[k].cl
    ensures |owners| == |p| && owners == set k: nat | 0 <= k < |p| :: p[k].cl
    ensures forall i :: i in owners ==> i < n
  {
    if p == [] {
      owners := {};
    } else {
      var last := |p| - 1;
      var rest := DistinctOwners(p[..last], n);
      owners := rest + {p[last].cl};
      assert p[last].cl !in rest;
    }
  }

  lemma {:induction false} SubsetBelow(owners: set<nat>, n: nat)
    requires forall i :: i in owners ==> i < n
    ensures |owners| <= n
  {
    if n > 0 {
      SubsetBelow(owners - {n - 1}, n - 1);
      if n - 1 in owners {
        assert owners == (owners - {n - 1}) + {n - 1};
      } else {
        assert owners == owners - {n - 1};
      }
    } else {
      assert owners == {};
    }
  }

  /** Every client has at most one request in the pipeline, so the pipeline is no longer than the list of clients. */
  lemma PipelineFitsClients(s: Sys)
    requires Reachable(s)
    ensures forall j, k :: 0 <= j < k < |Pipeline(s)| ==> Pipeline(s)[j].cl != Pipeline(s)[k].cl
    ensures forall k :: 0 <= k < |Pipeline(s)| ==> Pipeline(s)[k].cl < |s.clients|
    ensures |Pipeline(s)| <= |s.clients|
  {
    ReachableInv(s);
    var owners := DistinctOwners(Pipeline(s), |s.clients|);
    SubsetBelow(owners, |s.clients|);
  }

  /** With at most three clients the server never deadlocks: only a finished system cannot move. */
  lemma ThreeClientsNeverDeadlock(s: Sys)
    requires Reachable(s) && |s.clients| <= 3 && Stuck(s)
    ensures Finished(s) && |s.acked| == |s.accepted|
  {
    PipelineFitsClients(s);
    StuckIsFinishedOrOverfull(s);
    ReachableInv(s);
  }

  // ---------- Every run ends ----------

  function ControllerRank(c: Controller): nat {
    match c
    case AtDci => 0
    case AtDco(_) => 1
    case AtDint(_) => 2
    case AtDio(_) => 3
  }

  function SchedulerRank(d: Scheduler): nat {
    match d
    case Idle => 0
    case Await => 1
    case Check => 2
    case SendAck(_) => 3
    case Busy => 4
    case SendDci(_) => 8
    case SendEnq(_) => 21
  }

  function ClientRank(c: Client): nat {
    30 * |c.blocks| + (match c.pc case Between => 0 case WaitAck => 1 case More => 2)
  }

  function EventsLeft(s: Sys): nat {
    SchedulerRank(s.ds) + ControllerRank(s.ctl) + 10 * |View(s.q).s| + Places(s.q) + Sum(s.clients, ClientRank)
  }

  lemma QueueEventRank(q: Queue, e: Event)
    requires Inv(q) && Step(q, e).Some?
    ensures var t := Step(q, e).value;
            match e
            case Enq(_) => Places(t) == Places(q) + 6 && |View(t).s| == |View(q).s| + 1
            case Deq => Places(t) == Places(q) && |View(t).s| == |View(q).s|
            case Empty => Places(t) == Places(q) && |View(t).s| == |View(q).s|
            case Next(_) => Places(t) == Places(q) - 1 && |View(t).s| == |View(q).s| - 1
            case _ => Places(t) == Places(q) - 1 && |View(t).s| == |View(q).s|
  {
    StepRefines(q, e);
  }

  lemma QueueLowersRank(s: Sys, e: Event)
    requires Phases(s) && SysNext(s, Q(e)).Some?
    ensures EventsLeft(SysNext(s, Q(e)).value) < EventsLeft(s)
  {
    QueueEventRank(s.q, e);
    hide Places, View, Step, ClientRank;
  }

  lemma ClientLowersRank(s: Sys, l: Label)
    requires Phases(s) && (l.Ds? || l.MoreOf? || l.Ack?) && SysNext(s, l).Some?
    ensures EventsLeft(SysNext(s, l).value) < EventsLeft(s)
  {
    var t := SysNext(s, l).value;
    var i := if l.Ack? then s.ds.r.cl else l.i;
    SumUpdate(s.clients, ClientRank, i, t.clients[i]);
    hide Places, View, Step, SchedulerStep;
  }

  /** Every event, of the clients too, lowers the number of events left, so every run is finite. */
  lemma EventLowersRank(s: Sys, l: Label)
    requires Reachable(s) && SysNext(s, l).Some?
    ensures EventsLeft(SysNext(s, l).value) < EventsLeft(s)
  {
    hide Places, View, Step, SchedulerStep, Pipeline, Owns, Order, ClientRank;
    ReachableInv(s);
    match l
    case Q(e) => QueueLowersRank(s, e);
    case Ds(_) => ClientLowersRank(s, l);
    case MoreOf(_) => ClientLowersRank(s, l);
    case Ack => ClientLowersRank(s, l);
    case _ =>
  }

  // ---------- Whole runs ----------

  /** The blocks that client i asks for in xs, in order. */
  function BlocksOf(xs: seq<Item>, i: nat): seq<int> {
    if xs == [] then []
    else BlocksOf(xs[..|xs| - 1], i) + (if xs[|xs| - 1].cl == i then [xs[|xs| - 1].blk] else [])
  }

  lemma AcceptedGrows(xs: seq<Item>, r: Item, i: nat, blocks: seq<int>)
    requires r.cl == i ==> blocks != [] && r.blk == blocks[0]
    ensures BlocksOf(xs + [r], i) + (if r.cl == i then blocks[1..] else blocks) == BlocksOf(xs, i) + blocks
  {
    assert (xs + [r])[..|xs|] == xs;
    if r.cl == i {
      assert blocks == [r.blk] + blocks[1..];
    }
  }

  lemma StepKeepsScript(s: Sys, l: Label, i: nat)
    requires SysNext(s, l).Some? && i < |s.clients|
    ensures var t := SysNext(s, l).value;
            && |t.clients| == |s.clients|
            && BlocksOf(t.accepted, i) + t.clients[i].blocks == BlocksOf(s.accepted, i) + s.clients[i].blocks
  {
    hide Step, SchedulerStep, BlocksOf;
    if l.Ds? {
      AcceptedGrows(s.accepted, Item(l.i, s.clients[l.i].blocks[0]), i, s.clients[i].blocks);
    }
  }

  lemma {:induction false} RunKeepsScript(s: Sys, ls: seq<Label>, i: nat)
    requires SysRun(s, ls).Some? && i < |s.clients|
    ensures var t := SysRun(s, ls).value;
            && |t.clients| == |s.clients|
            && BlocksOf(t.accepted, i) + t.clients[i].blocks == BlocksOf(s.accepted, i) + s.clients[i].blocks
    decreases |ls|
  {
    hide SysNext;
    if ls != [] {
      StepKeepsScript(s, ls[0], i);
      RunKeepsScript(SysNext(s, ls[0]).value, ls[1..], i);
    }
  }

  /** All is served: every client's blocks were accepted in the client's own order, and acknowledged. */
  predicate AllServed(scripts: seq<seq<int>>, s: Sys) {
    && Finished(s) && |s.acked| == |s.accepted|
    && forall i :: 0 <= i < |scripts| ==> BlocksOf(s.accepted, i) == scripts[i]
  }

  lemma FinishedServesAll(scripts: seq<seq<int>>, ls: seq<Label>)
    requires SysRun(Init(scripts), ls).Some? && Finished(SysRun(Init(scripts), ls).value)
    ensures AllServed(scripts, SysRun(Init(scripts), ls).value)
    ensures Pipeline(SysRun(Init(scripts), ls).value) == []
  {
    var s := SysRun(Init(scripts), ls).value;
    hide SysNext;
    assert Reachable(s);
    SameClients(Init(scripts), ls);
    ServedInOrder(s);
    forall i | 0 <= i < |scripts| ensures BlocksOf(s.accepted, i) == scripts[i] {
      RunKeepsScript(Init(scripts), ls, i);
      assert s.clients[i] == Client([], Between);
      assert BlocksOf([], i) + scripts[i] == scripts[i];
      assert BlocksOf(s.accepted, i) + [] == BlocksOf(s.accepted, i);
    }
  }

  /**
   A run that cannot go on, with any number of clients, has served every request of every client,
   and has brought all processes back to their start, if and only if fewer than four requests are
   unacknowledged.
   */
  lemma MaximalRunServesAllIff(scripts: seq<seq<int>>, ls: seq<Label>)
    requires SysRun(Init(scripts), ls).Some? && Stuck(SysRun(Init(scripts), ls).value)
    ensures var s := SysRun(Init(scripts), ls).value; AllServed(scripts, s) <==> |Pipeline(s)| < 4
  {
    var s := SysRun(Init(scripts), ls).value;
    hide SysNext, Stuck, Pipeline, Finished;
    assert Reachable(s);
    ServedInOrder(s);
    StuckIsFinishedOrOverfull(s);
    if Finished(s) { FinishedServesAll(scripts, ls); }
  }

  /** With at most three clients every run that cannot go on has served everything. */
  lemma MaximalRunServesAll(scripts: seq<seq<int>>, ls: seq<Label>)
    requires |scripts| <= 3 && SysRun(Init(scripts), ls).Some? && Stuck(SysRun(Init(scripts), ls).value)
    ensures AllServed(scripts, SysRun(Init(scripts), ls).value)
  {
    var s := SysRun(Init(scripts), ls).value;
    hide SysNext, Stuck, Pipeline, AllServed;
    assert Reachable(s);
    SameClients(Init(scripts), ls);
    PipelineFitsClients(s);
    MaximalRunServesAllIff(scripts, ls);
  }

  lemma {:induction false} SameClients(s: Sys, ls: seq<Label>)
    requires SysRun(s, ls).Some?
    ensures |SysRun(s, ls).value.clients| == |s.clients|
    decreases |ls|
  {
    if ls != [] { SameClients(SysNext(s, ls[0]).value, ls[1..]); }
  }

  lemma {:induction false} RunSnoc(s: Sys, ls: seq<Label>, l: Label)
    requires SysRun(s, ls).Some?
    ensures SysRun(s, ls + [l]) == SysNext(SysRun(s, ls).value, l)
    decreases |ls|
  {
    hide SysNext;
    if ls == [] {
      assert ls + [l] == [l];
      var t := SysNext(s, l);
      assert t.Some? ==> SysRun(t.value, [l][1..]) == Some(t.value);
    } else {
      assert (ls + [l])[1..] == ls[1..] + [l];
      RunSnoc(SysNext(s, ls[0]).value, ls[1..], l);
    }
  }

  lemma ReachableStep(s: Sys, l: Label)
    requires Reachable(s) && SysNext(s, l).Some?
    ensures Reachable(SysNext(s, l).value)
  {
    var scripts, ls :| SysRun(Init(scripts), ls) == Some(s);
    RunSnoc(Init(scripts), ls, l);
  }

  // ---------- When the server can still finish ----------

  ghost predicate CanFinish(s: Sys) {
    exists ls: seq<Label> :: SysRun(s, ls).Some? && Finished(SysRun(s, ls).value)
  }

  /** Until the work is done, some event does not fill the server up: a busy controller is served first. */
  lemma SafeStep(s: Sys) returns (l: Label)
    requires Reachable(s) && !Overfull(s) && !Finished(s)
    ensures SysNext(s, l).Some? && !Overfull(SysNext(s, l).value)
  {
    ReachableInv(s);
    if s.ds.Busy? {
      l := if s.ctl.AtDio? then Dio else if s.ctl.AtDint? then Dint else Dco;
    } else {
      if Stuck(s) {
        StuckIsFinishedOrOverfull(s);
      }
      l :| SysNext(s, l).Some?;
      StepMovesPipeline(s, l);
      StoredAtMostTwo(s.q);
      hide Step, View, SchedulerStep;
    }
  }

  lemma {:induction false} FinishingRun(s: Sys) returns (ls: seq<Label>)
    requires Reachable(s) && !Overfull(s)
    ensures SysRun(s, ls).Some? && Finished(SysRun(s, ls).value)
    decreases EventsLeft(s)
  {
    hide SysNext, Reachable, Overfull, Finished, EventsLeft;
    if Finished(s) {
      ls := [];
    } else {
      var l := SafeStep(s);
      var t := SysNext(s, l).value;
      ReachableStep(s, l);
      EventLowersRank(s, l);
      ls := FinishingRun(t);
      assert ([l] + ls)[1..] == ls;
      ls := [l] + ls;
    }
  }

  lemma {:induction false} OverfullForever(s: Sys, ls: seq<Label>)
    requires Reachable(s) && Overfull(s) && SysRun(s, ls).Some?
    ensures Overfull(SysRun(s, ls).value)
    decreases |ls|
  {
    hide SysNext, Reachable, Overfull;
    if ls != [] {
      OverfullStays(s, ls[0]);
      ReachableStep(s, ls[0]);
      OverfullForever(SysNext(s, ls[0]).value, ls[1..]);
    }
  }

  /**
   With any number of clients, all the work can still be finished exactly as long as fewer than four
   requests are unacknowledged.
   */
  lemma CanFinishIff(s: Sys)
    requires Reachable(s)
    ensures CanFinish(s) <==> |Pipeline(s)| < 4
  {
    ServedInOrder(s);
    if Overfull(s) {
      forall ls | SysRun(s, ls).Some? ensures !Finished(SysRun(s, ls).value) {
        OverfullForever(s, ls);
      }
    } else {
      var ls := FinishingRun(s);
    }
  }

  // ---------- Which clients can fill the server up ----------

  ghost predicate ReachableFrom(scripts: seq<seq<int>>, s: Sys) {
    exists ls: seq<Label> :: SysRun(Init(scripts), ls) == Some(s)
  }

  lemma Take(scripts: seq<seq<int>>, s: Sys, l: Label) returns (t: Sys)
    requires ReachableFrom(scripts, s) && SysNext(s, l).Some?
    ensures ReachableFrom(scripts, t) && SysNext(s, l) == Some(t)
  {
    t := SysNext(s, l).value;
    var ls :| SysRun(Init(scripts), ls) == Some(s);
    RunSnoc(Init(scripts), ls, l);
  }

  predicate CanAsk(s: Sys, i: nat) {
    i < |s.clients| && s.clients[i].pc.Between? && s.clients[i].blocks != []
  }

  /** The scheduler passes its request to the queue, which moves it on as far as it can go. */
  lemma Store(scripts: seq<seq<int>>, s: Sys) returns (t: Sys)
    requires ReachableFrom(scripts, s) && s.ds.SendEnq?
    requires s.q == START || (s.q.c == DQ(1) && s.q.a.Hollow? && s.q.b.Loaded?)
    ensures ReachableFrom(scripts, t) && t == s.(ds := Busy, q := t.q)
    ensures s.q == START ==> t.q == Queue(DQ(1), Hollow, Loaded(s.ds.r))
    ensures s.q != START ==> t.q.c == DQ(2) && |View(t.q).s| == 2
  {
    hide ReachableFrom;
    t := Take(scripts, s, Q(Enq(s.ds.r)));
    t := Take(scripts, t, Q(LeftE));
    t := Take(scripts, t, Q(ShiftA));
    if s.q == START { t := Take(scripts, t, Q(Comm)); }
  }

  /** Four clients with work to do fill the server up. */
  lemma FillUp(scripts: seq<seq<int>>, a: nat, b: nat, c: nat, d: nat) returns (s: Sys)
    requires a < b < c < d < |scripts| && scripts[a] != [] && scripts[b] != [] && scripts[c] != [] && scripts[d] != []
    ensures ReachableFrom(scripts, s) && Overfull(s) && s.acked == []
  {
    s := Init(scripts);
    assert SysRun(s, []) == Some(s);
    hide ReachableFrom;
    assert CanAsk(s, a) && CanAsk(s, b) && CanAsk(s, c) && CanAsk(s, d);
    s := Take(scripts, s, Ds(a));
    s := Take(scripts, s, Dci);
    s := Take(scripts, s, Ds(b));
    s := Store(scripts, s);
    s := Take(scripts, s, Ds(c));
    s := Store(scripts, s);
    s := Take(scripts, s, Ds(d));
  }

  /** The clients that have something to ask for. */
  function Askers(scripts: seq<seq<int>>): set<nat> {
    set i: nat | i < |scripts| && scripts[i] != []
  }

  lemma FourOf(owners: set<nat>) returns (a: nat, b: nat, c: nat, d: nat)
    requires |owners| >= 4
    ensures a < b < c < d && a in owners && b in owners && c in owners && d in owners
  {
    a := Least(owners);
    var three := owners - {a};
    assert |three| == |owners| - 1;
    b := Least(three);
    var two := three - {b};
    assert |two| == |three| - 1;
    c := Least(two);
    assert |two - {c}| == |two| - 1;
    d := Least(two - {c});
  }

  lemma {:induction false} Least(owners: set<nat>) returns (i: nat)
    requires owners != {}
    ensures i in owners && forall j :: j in owners ==> i <= j
    decreases |owners|
  {
    var pick :| pick in owners;
    var rest := owners - {pick};
    i := pick;
    if rest != {} {
      var j := Least(rest);
      if j < pick { i := j; }
    }
    forall k | k in owners ensures i <= k {
      assert k == pick || k in rest;
    }
  }

  lemma {:induction false} BlocksOfMember(xs: seq<Item>, k: nat)
    requires k < |xs|
    ensures BlocksOf(xs, xs[k].cl) != []
  {
    if k < |xs| - 1 { BlocksOfMember(xs[..|xs| - 1], k); }
  }

  lemma PipelineAsked(scripts: seq<seq<int>>, s: Sys, k: nat)
    requires ReachableFrom(scripts, s) && k < |Pipeline(s)|
    ensures Pipeline(s)[k].cl in Askers(scripts)
  {
    var ls :| SysRun(Init(scripts), ls) == Some(s);
    assert Reachable(s);
    ServedInOrder(s);
    PipelineFitsClients(s);
    SameClients(Init(scripts), ls);
    BlocksOfMember(s.accepted, |s.acked| + k);
    RunKeepsScript(Init(scripts), ls, Pipeline(s)[k].cl);
    hide Pipeline, SysNext;
  }

  /**
   The server can fill up, and then never serve again, if and only if at least four clients have
   something to ask for.
   */
  lemma DeadlockReachableIff(scripts: seq<seq<int>>)
    ensures (exists s: Sys :: ReachableFrom(scripts, s) && Overfull(s)) <==> |Askers(scripts)| >= 4
  {
    if s: Sys :| ReachableFrom(scripts, s) && Overfull(s) {
      assert Reachable(s);
      PipelineFitsClients(s);
      forall k | 0 <= k < |Pipeline(s)| ensures Pipeline(s)[k].cl in Askers(scripts) { PipelineAsked(scripts, s, k); }
      var owners := DistinctOwners(Pipeline(s), |s.clients|);
      AtMost(owners, Askers(scripts));
    }
    if |Askers(scripts)| >= 4 {
      var a, b, c, d := FourOf(Askers(scripts));
      var s := FillUp(scripts, a, b, c, d);
    }
  }

  lemma {:induction false} AtMost(a: set<nat>, b: set<nat>)
    requires a <= b
    ensures |a| <= |b|
  {
    if x :| x in a {
      AtMost(a - {x}, b - {x});
    }
  }
}
