/**
 Alternative::select and Alternative::schedule over any number of guards, as a step
 system.  One thread selects and reads; guard number x has its own partner thread.
 Every lock, unlock, wait and signal is a step of its own; the statements between two
 such boundaries are one step.
 */
module Choice {
  import opened Wrappers
  import opened Guards

  datatype AltState = Enabling | Waiting | Ready | Inactive

  /** Who holds the mutex of the alternative. */
  datatype AltOwner = AltFree | BySelecting | ByPartner(i: nat)

  /** Where the selecting thread is inside `read` (channel) or `sync`/`sync_sem` (barrier). */
  datatype UsePc =
    | USem
    | ULock(chosen: bool)   // chosen: the guard was returned by select
    | UBody(chosen: bool)
    | USched | UInSched | USchedUnlock
    | UWait | UAsleep | UWoken | UCopy | USignal | UPost | UUnlock

  /** Where the selecting thread is.  `k`, `b` and `i` are positions in m_c. */
  datatype SelPc =
    | SIdle
    | SStart                               // select called
    | STop(k: int)                         // head of the enabling loop, bound = k
    | SBody(k: int)                        // holds the alternative: the test of m_state
    | SEnSem(k: int)                       // Barrier2::enable: about to sem_wait
    | SEnLock(k: int)                      // enable: about to lock the guard
    | SEnBody(k: int)                      // enable: holds both
    | SEnSelf(k: int)                      // enable: about to lock the alternative it already holds
    | SEnUnlock(k: int, r: bool)           // enable: about to unlock the guard and return r
    | SUnlock(k: int, leave: bool)         // about to unlock the alternative
    | SFix(b: int)                         // after the loop, bound = b
    | SWLock(b: int) | SWBody(b: int)
    | SAsleep(b: int) | SWoken(b: int)
    | SWUnlock(b: int)
    | SDis(b: int, i: int)                 // head of the disabling loop
    | SDisLock(b: int, i: int, care: bool)
    | SDisBody(b: int, i: int, care: bool)
    | SDisPost(b: int, i: int)             // Barrier2::disable(false): about to sem_post
    | SDisUnlock(b: int, i: int, care: bool)
    | SEnd                                 // about to set eInactive and return
    | SChosen(p: int)                      // select has returned p
    | SUse(x: nat, u: UsePc)

  datatype State = State(
    g: seq<Guard>,
    gs: seq<nat>,             // m_c, as guard numbers; m_len is its length
    astate: AltState,         // m_state
    selector: Option<nat>,    // m_selector
    alt: AltOwner,            // m_sync of the alternative
    spc: SelPc,
    selected: int,            // the local variable of select
    picks: nat)               // history: assignments to m_selector in the running select

  /** A system with the given guards; m_state has no initial value in the constructor. */
  function Init(kinds: seq<Kind>, a: AltState): State {
    State(seq(|kinds|, x requires 0 <= x < |kinds| => Fresh(kinds[x])), [], a, None, AltFree, SIdle, 0, 0)
  }

  predicate InRange(s: State, k: int) {
    0 <= k < |s.gs| && s.gs[k] < |s.g|
  }

  function Put(s: State, x: nat, h: Guard): State
    requires x < |s.g|
  {
    s.(g := s.g[x := h])
  }

  /** The switch of schedule for eEnabling and eWaiting. */
  function Pick(s: State, x: nat): State {
    s.(astate := Ready, selector := Some(x), picks := s.picks + 1)
  }

  // ---------- The partner of guard i ----------

  /** The partner of s.g[i] can take its next step. */
  predicate PartnerCan(s: State, i: nat) {
    && i < |s.g|
    && match s.g[i].ppc
       case PIdle => false
       case PAsleep => false
       case PSem => s.g[i].sem > 0
       case PLock => s.g[i].sync == Free
       case PWoken => s.g[i].sync == Free
       case PSched => s.alt == AltFree
       case _ => true
  }

  /** What the partner's step does to its guard. */
  function PartnerMove(g: Guard, a: AltState): Guard {
    match g.ppc
    case PIdle => g
    case PSem => g.(sem := if g.sem == 0 then 0 else g.sem - 1, ppc := PLock)
    case PLock => g.(sync := Partner, ppc := PBody)
    case PBody => if g.kind.Channel? then WriteBody(g) else SyncBody(g)
    case PSched => g.(ppc := PInSched)
    case PInSched => g.(ppc := if a == Waiting then PSchedSignal else PSchedUnlock)
    case PSchedSignal => g.(ppc := PSchedUnlock)
    case PSchedUnlock => g.(ppc := PWait)
    case PSignal => if g.kind.Channel? then g.(ppc := PWait) else g.(parts := g.parts - 2, ppc := PPost)
    case PWait => g.(sync := Free, ppc := PAsleep)
    case PAsleep => g
    case PWoken => g.(sync := Partner, ppc := if g.kind.Channel? then PUnlock else PPost)
    case PPost => g.(sem := g.sem + 1, ppc := PUnlock)
    case PUnlock => g.(sync := Free, ppc := PIdle, returned := g.returned + 1)
  }

  /** What the partner's step does to the alternative and to the selecting thread. */
  function PartnerStep(s: State, i: nat): Option<State> {
    if !PartnerCan(s, i) then None else
    var t := Put(s, i, PartnerMove(s.g[i], s.astate));
    Some(match s.g[i].ppc
         case PSched => t.(alt := ByPartner(i))
         case PInSched => if s.astate == Enabling || s.astate == Waiting then Pick(t, i) else t
         case PSchedSignal => if s.spc.SAsleep? then t.(spc := SWoken(s.spc.b)) else t
         case PSchedUnlock => t.(alt := AltFree)
         case PSignal => if s.spc == SUse(i, UAsleep) then t.(spc := SUse(i, UWoken)) else t
         case _ => t)
  }

  /** The partner calls write with a buffer holding v, or sync. */
  function PartnerCall(s: State, i: nat, v: int): Option<State> {
    if i >= |s.g| || !s.g[i].ppc.PIdle? then None else
    var g := s.g[i];
    Some(Put(s, i, if g.kind.Channel? then g.(sent := g.sent + [v], ppc := PLock) else g.(ppc := PSem)))
  }

  // ---------- The selecting thread ----------

  predicate UseCan(s: State, x: nat, u: UsePc) {
    && x < |s.g|
    && match u
       case UAsleep => false
       case USem => s.g[x].sem > 0
       case ULock(_) => s.g[x].sync == Free
       case UWoken => s.g[x].sync == Free
       case USched => s.alt == AltFree
       case _ => true
  }

  /** What the step of the selecting thread does to the guard. */
  function UseMove(g: Guard, u: UsePc): Guard {
    match u
    case USem => g.(sem := if g.sem == 0 then 0 else g.sem - 1)
    case ULock(_) => g.(sync := Selecting)
    case UBody(_) => if g.kind.Channel? then ReadBody(g).0 else g.(parts := g.parts + 1)
    case UWait => g.(sync := Free)
    case UWoken => g.(sync := Selecting)
    case UCopy => Copy(g)
    case USignal =>
      var h := if g.ppc.PAsleep? then g.(ppc := PWoken) else g;
      if g.kind.Channel? then h else h.(parts := h.parts - 2)
    case UPost => g.(sem := g.sem + 1)
    case UUnlock => g.(sync := Free)
    case _ => g
  }

  /** Where the step takes the selecting thread; it is outside the call after UUnlock. */
  function UseNext(g: Guard, u: UsePc): Option<UsePc> {
    match u
    case USem => Some(ULock(false))
    case ULock(c) => Some(UBody(c))
    case UBody(_) =>
      if g.kind.Channel? then Some(if ReadBody(g).1 then UWait else USignal)
      else Some(if g.parts + 1 == 2 then USignal else if g.pAlt then USched else UWait)
    case USched => Some(UInSched)
    case UInSched => Some(USchedUnlock)
    case USchedUnlock => Some(UWait)
    case UWait => Some(UAsleep)
    case UAsleep => Some(UAsleep)
    case UWoken => Some(if g.kind.Channel? then UCopy else UPost)
    case UCopy => Some(USignal)
    case USignal => Some(if g.kind.Channel? then UUnlock else UPost)
    case UPost => Some(UUnlock)
    case UUnlock => None
  }

  function UseStep(s: State, x: nat, u: UsePc): Option<State> {
    if !UseCan(s, x, u) then None else
    var next := UseNext(s.g[x], u);
    var t := Put(s, x, UseMove(s.g[x], u)).(spc := if next.None? then SIdle else SUse(x, next.value));
    Some(match u
         case USched => t.(alt := BySelecting)
         case UInSched => if s.astate == Enabling || s.astate == Waiting then Pick(t, x) else t
         case USchedUnlock => t.(alt := AltFree)
         case _ => t)
  }

  /** enable, called by select with the alternative locked. */
  function EnableStep(s: State): Option<State>
    requires s.spc.SEnSem? || s.spc.SEnLock? || s.spc.SEnBody? || s.spc.SEnUnlock?
  {
    var k := s.spc.k;
    if !InRange(s, k) then None else
    var x := s.gs[k];
    var g := s.g[x];
    match s.spc
    case SEnSem(_) =>
      if g.sem == 0 then None else Some(Put(s, x, g.(sem := g.sem - 1)).(spc := SEnLock(k)))
    case SEnLock(_) =>
      if g.sync != Free then None else Some(Put(s, x, g.(sync := Selecting)).(spc := SEnBody(k)))
    case SEnBody(_) =>
      if EnableCallsSchedule(g) then Some(s.(spc := SEnSelf(k))) else
      var (h, r) := EnableBody(g);
      Some(Put(s, x, h.(enrolled := true)).(spc := SEnUnlock(k, r)))
    case SEnUnlock(_, r) =>
      var t := Put(s, x, g.(sync := Free)).(spc := SUnlock(k, r));
      Some(if r then Pick(t, x) else t)
  }

  /** disable, called by select. */
  function DisableStep(s: State): Option<State>
    requires s.spc.SDisLock? || s.spc.SDisBody? || s.spc.SDisPost? || s.spc.SDisUnlock?
  {
    var b := s.spc.b;
    var i := s.spc.i;
    if !InRange(s, i) then None else
    var x := s.gs[i];
    var g := s.g[x];
    match s.spc
    case SDisLock(_, _, care) =>
      if g.sync != Free then None else Some(Put(s, x, g.(sync := Selecting)).(spc := SDisBody(b, i, care)))
    case SDisBody(_, _, care) =>
      Some(Put(s, x, DisableBody(g).(enrolled := false)).(spc :=
        if g.kind.Barrier? && !care then SDisPost(b, i) else SDisUnlock(b, i, care)))
    case SDisPost(_, _) =>
      Some(Put(s, x, g.(sem := g.sem + 1)).(spc := SDisUnlock(b, i, false)))
    case SDisUnlock(_, _, _) =>
      Some(Put(s, x, g.(sync := Free)).(spc := SDis(b, i + 1)))
  }

  function SelectStep(s: State): Option<State> {
    match s.spc
    case SIdle => None
    case SStart => Some(s.(astate := Enabling, picks := 0, spc := STop(0)))
    case STop(k) =>
      if k >= |s.gs| then Some(s.(spc := SFix(k)))
      else if s.alt != AltFree then None
      else Some(s.(alt := BySelecting, spc := SBody(k)))
    case SBody(k) =>
      if s.astate == Ready then Some(s.(spc := SUnlock(k - 1, true)))
      else if !InRange(s, k) then None
      else Some(s.(spc := if s.g[s.gs[k]].kind.Barrier? then SEnSem(k) else SEnLock(k)))
    case SEnSem(_) => EnableStep(s)
    case SEnLock(_) => EnableStep(s)
    case SEnBody(_) => EnableStep(s)
    case SEnUnlock(_, _) => EnableStep(s)
    case SEnSelf(_) => None
    case SUnlock(k, leave) =>
      Some(s.(alt := AltFree, spc := if leave then SFix(k) else STop(k + 1)))
    case SFix(b) => Some(s.(spc := SWLock(if b == |s.gs| then b - 1 else b)))
    case SWLock(b) =>
      if s.alt != AltFree then None else Some(s.(alt := BySelecting, spc := SWBody(b)))
    case SWBody(b) =>
      if s.astate == Enabling then Some(s.(astate := Waiting, alt := AltFree, spc := SAsleep(b)))
      else Some(s.(spc := SWUnlock(b)))
    case SAsleep(_) => None
    case SWoken(b) =>
      if s.alt != AltFree then None else Some(s.(alt := BySelecting, spc := SWUnlock(b)))
    case SWUnlock(b) => Some(s.(alt := AltFree, selected := |s.gs|, spc := SDis(b, 0)))
    case SDis(b, i) =>
      if i > b then Some(s.(spc := SEnd))
      else if !InRange(s, i) then None
      else
        var care := s.selector == Some(s.gs[i]);
        Some(s.(selected := if care then i else s.selected, spc := SDisLock(b, i, care)))
    case SDisLock(_, _, _) => DisableStep(s)
    case SDisBody(_, _, _) => DisableStep(s)
    case SDisPost(_, _) => DisableStep(s)
    case SDisUnlock(_, _, _) => DisableStep(s)
    case SEnd => Some(s.(astate := Inactive, spc := SChosen(s.selected)))
    case SChosen(p) =>
      // the caller reads, or calls sync_sem on, the guard it was given
      if !InRange(s, p) then None else Some(s.(spc := SUse(s.gs[p], ULock(true))))
    case SUse(x, u) => UseStep(s, x, u)
  }

  predicate Distinct(gs: seq<nat>) {
    forall i, j :: 0 <= i < j < |gs| ==> gs[i] != gs[j]
  }

  /** What the library asks of the list of guards given to an alternative. */
  predicate GoodList(s: State, gs: seq<nat>) {
    && |gs| > 0
    && Distinct(gs)
    && forall k :: 0 <= k < |gs| ==> gs[k] < |s.g|
  }

  datatype Label =
    | Select                           // the selecting thread takes a step
    | Step(i: nat)                     // partner i takes a step
    | CallSelect(gs: seq<nat>)         // the selecting thread calls select
    | CallUse(x: nat)                  // the selecting thread calls read or sync
    | CallPartner(i: nat, v: int)      // partner i calls write or sync

  predicate Internal(l: Label) {
    l.Select? || l.Step?
  }

  function Next(s: State, l: Label): Option<State> {
    match l
    case Select => SelectStep(s)
    case Step(i) => PartnerStep(s, i)
    case CallSelect(gs) =>
      if s.spc.SIdle? && GoodList(s, gs) then Some(s.(gs := gs, spc := SStart)) else None
    case CallUse(x) =>
      if s.spc.SIdle? && x < |s.g| then
        Some(s.(spc := SUse(x, if s.g[x].kind.Channel? then ULock(false) else USem)))
      else None
    case CallPartner(i, v) => PartnerCall(s, i, v)
  }

  /** The state after a run of labels, each enabled in turn. */
  function Run(s: State, ls: seq<Label>): Option<State>
    decreases |ls|
  {
    if ls == [] then Some(s) else
    var t := Next(s, ls[0]);
    if t.None? then None else Run(t.value, ls[1..])
  }
}
