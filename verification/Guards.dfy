/**
 The two kinds of guard that a choice may wait on: One2OneChannel and Barrier2.

 A guard has two users.  The `selecting` thread reads the channel (or synchronises on
 the barrier) and may put the guard into a choice; the `partner` thread writes the
 channel (or synchronises on the barrier).  The record keeps the C++ fields, the mutex
 owner, the partner's program counter and some history.  The wait set of the guard's
 condition variable is the set of threads whose program counter is at a wait.
 */
module Guards {
  import opened Wrappers

  datatype Kind = Channel | Barrier

  /** Who holds the mutex of a guard. */
  datatype Owner = Free | Selecting | Partner

  /** Where the partner is inside `write` (channel) or `sync` (barrier). */
  datatype PartnerPc =
    | PIdle         // outside the call
    | PSem          // barrier: about to sem_wait
    | PLock         // about to lock the guard
    | PBody         // holds the guard: the test on m_bEmpty / m_parts
    | PSched        // holds the guard, about to lock the alternative
    | PInSched      // holds both: the switch in Alternative::schedule
    | PSchedSignal  // holds both: about to signal the selecting thread
    | PSchedUnlock  // holds both: about to unlock the alternative
    | PSignal       // holds the guard: about to signal the guard's condition
    | PWait         // holds the guard: about to wait
    | PAsleep       // in the wait set of the guard's condition
    | PWoken        // signalled, must lock the guard again
    | PPost         // barrier: about to sem_post
    | PUnlock       // about to unlock the guard and return

  datatype Guard = Guard(
    kind: Kind,
    sync: Owner,          // m_sync
    bEmpty: bool,         // One2OneChannel::m_bEmpty
    pBuff: Option<int>,   // One2OneChannel::m_pBuff, as the number of the write that owns the buffer
    parts: int,           // Barrier2::m_parts
    sem: nat,             // Barrier2::m_sem
    pAlt: bool,           // m_pAlt != NULL
    ppc: PartnerPc,
    enrolled: bool,       // history: enabled by the running select and not disabled yet
    sent: seq<int>,       // history: the buffer contents given to write, one per call
    got: seq<int>,        // history: the contents copied out by read
    returned: nat)        // history: calls of the partner that have returned

  function Fresh(kind: Kind): Guard {
    Guard(kind, Free, true, None, 0, 2, false, PIdle, false, [], [], 0)
  }

  /** Some partner has come and waits for the selecting thread. */
  predicate Arrived(g: Guard) {
    if g.kind.Channel? then !g.bEmpty else g.parts != 0
  }

  /** What memcpy reads through m_pBuff; a pointer to no write reads garbage. */
  function Contents(g: Guard): int {
    if g.pBuff.Some? && 0 <= g.pBuff.value < |g.sent| then g.sent[g.pBuff.value] else 0
  }

  function Copy(g: Guard): Guard {
    g.(got := g.got + [Contents(g)])
  }

  // ---------- Critical sections of the partner ----------

  /** The entry of One2OneChannel::write up to its next boundary. */
  function WriteBody(g: Guard): Guard {
    var h := g.(pBuff := Some(|g.sent| - 1));
    if h.bEmpty then
      h.(bEmpty := false, ppc := if h.pAlt then PSched else PWait)
    else
      h.(bEmpty := true, ppc := PSignal)
  }

  /** The entry of Barrier2::sync_sem up to its next boundary, for the partner. */
  function SyncBody(g: Guard): Guard {
    var h := g.(parts := g.parts + 1);
    if h.parts != 2 then
      h.(ppc := if h.pAlt then PSched else PWait)
    else
      h.(ppc := PSignal)
  }

  // ---------- Critical sections of the selecting thread ----------

  /** Barrier2::enable finds an alternative already registered and calls its schedule. */
  predicate EnableCallsSchedule(g: Guard) {
    g.kind.Barrier? && g.parts == 0 && g.pAlt
  }

  /** The body of enable in its other branches, with its result. */
  function EnableBody(g: Guard): (Guard, bool) {
    if g.kind.Channel? then
      if g.bEmpty then (g.(pAlt := true), false) else (g, true)
    else
      if g.parts == 0 then (g.(pAlt := true), false) else (g.(pAlt := false), true)
  }

  function DisableBody(g: Guard): Guard {
    g.(pAlt := false)
  }

  /** The entry of One2OneChannel::read: the new guard and whether the reader must wait. */
  function ReadBody(g: Guard): (Guard, bool) {
    if g.bEmpty then (g.(bEmpty := false), true) else (Copy(g.(bEmpty := true)), false)
  }
}
