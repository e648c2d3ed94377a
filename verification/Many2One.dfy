/**
 Many2OneChannel: any number of writers and one reader, as a step system.  `m_sync` and
 `m_mxReader` are two mutexes, `m_cond` wakes writers and `m_cdReader` wakes the reader.
 The set of threads waiting on a condition is the set of those whose program counter is
 at the wait; a signal on m_cond wakes any one of them.
 */
module Many2One {
  import opened Wrappers

  /** A guard of cond_read, with its environment supplied. */
  type Test = int -> bool

  datatype Owner = Free | ByReader | ByWriter(i: nat)

  datatype ReaderPc =
    | RIdle
    | RLock(test: Option<Test>)   // about to lock m_sync
    | ROpen(test: Option<Test>)   // holds m_sync: sets m_func and m_bReader
    | RSignal                     // holds m_sync: about to signal m_cond
    | RLockMx                     // holds m_sync, about to lock m_mxReader
    | RUnlock                     // holds both, about to unlock m_sync
    | RWait                       // holds m_mxReader, about to wait on m_cdReader
    | RAsleep                     // in the wait set of m_cdReader
    | RWoken                      // signalled, must lock m_mxReader again
    | RUnlockMx                   // holds m_mxReader
    | RLock2                      // about to lock m_sync
    | RClose                      // holds m_sync: copies and closes
    | RLeave                      // holds m_sync, about to unlock it and return

  datatype WriterPc =
    | WIdle
    | WLock                       // about to lock m_sync
    | WEnter                      // holds m_sync: ++m_ulWriter
    | WTest                       // holds m_sync: the condition of the while loop
    | WAsleep                     // in the wait set of m_cond
    | WWoken                      // signalled, must lock m_sync again
    | WLockMx                     // holds m_sync, about to lock m_mxReader
    | WSignal                     // holds both, about to signal m_cdReader
    | WUnlockMx                   // holds both
    | WLeave                      // holds m_sync: --m_ulWriter and unlock

  datatype Writer = Writer(
    pc: WriterPc,
    buffer: int,          // what the buffer of the current call holds
    committed: nat,       // history: calls that have installed their buffer
    returned: nat)        // history: calls that have returned

  datatype State = State(
    sync: Owner,                  // m_sync
    mx: Owner,                    // m_mxReader
    bReader: bool,                // m_bReader
    ulWriter: int,                // m_ulWriter
    pBuff: Option<nat>,           // m_pBuff, as the number of the commit that installed it
    func: Option<Test>,           // m_func with m_env
    rpc: ReaderPc,
    w: seq<Writer>,
    commits: seq<int>,            // history: the buffers installed, in order
    got: seq<int>,                // history: what the reads have copied
    asked: seq<Option<Test>>)     // history: the guard of each read that has opened

  function Init(n: nat): State {
    State(Free, Free, false, 0, None, None, RIdle, seq(n, _ => Writer(WIdle, 0, 0, 0)), [], [], [])
  }

  function Put(s: State, i: nat, x: Writer): State
    requires i < |s.w|
  {
    s.(w := s.w[i := x])
  }

  /** The condition of the while loop in write: the writer must wait. */
  predicate MustWait(s: State, v: int) {
    !s.bReader || s.pBuff.Some? || (s.func.Some? && !s.func.value(v))
  }

  predicate WriterCan(s: State, i: nat) {
    && i < |s.w|
    && match s.w[i].pc
       case WIdle => false
       case WAsleep => false
       case WLock => s.sync == Free
       case WWoken => s.sync == Free
       case WLockMx => s.mx == Free
       case _ => true
  }

  function WriterNext(s: State, x: Writer): WriterPc {
    match x.pc
    case WIdle => WIdle
    case WLock => WEnter
    case WEnter => WTest
    case WTest => if MustWait(s, x.buffer) then WAsleep else WLockMx
    case WAsleep => WAsleep
    case WWoken => WTest
    case WLockMx => WSignal
    case WSignal => WUnlockMx
    case WUnlockMx => WLeave
    case WLeave => WIdle
  }

  function WriterStep(s: State, i: nat): State
    requires i < |s.w|
  {
    var x := s.w[i];
    var t := Put(s, i, x.(pc := WriterNext(s, x)));
    match x.pc
    case WIdle => t
    case WLock => t.(sync := ByWriter(i))
    case WEnter => t.(ulWriter := s.ulWriter + 1)
    case WTest =>
      if MustWait(s, x.buffer) then t.(sync := Free)
      else Put(t, i, t.w[i].(committed := x.committed + 1)).(pBuff := Some(|s.commits|),
          commits := s.commits + [x.buffer])
    case WAsleep => t
    case WWoken => t.(sync := ByWriter(i))
    case WLockMx => t.(mx := ByWriter(i))
    case WSignal => if s.rpc.RAsleep? then t.(rpc := RWoken) else t
    case WUnlockMx => t.(mx := Free)
    case WLeave => Put(t, i, t.w[i].(returned := x.returned + 1)).(ulWriter := s.ulWriter - 1, sync := Free)
  }

  /** wake: the writer that a signal on m_cond wakes, when some writer waits. */
  predicate ReaderCan(s: State, wake: nat) {
    match s.rpc
    case RIdle => false
    case RAsleep => false
    case RLock(_) => s.sync == Free
    case RLock2 => s.sync == Free
    case RLockMx => s.mx == Free
    case RWoken => s.mx == Free
    case RSignal => (exists i :: 0 <= i < |s.w| && s.w[i].pc.WAsleep?) ==> wake < |s.w| && s.w[wake].pc.WAsleep?
    case _ => true
  }

  /** What memcpy reads through m_pBuff; a null pointer reads garbage. */
  function Contents(s: State): int {
    if s.pBuff.Some? && s.pBuff.value < |s.commits| then s.commits[s.pBuff.value] else 0
  }

  function ReaderStep(s: State, wake: nat): State {
    match s.rpc
    case RIdle => s
    case RLock(f) => s.(sync := ByReader, rpc := ROpen(f))
    case ROpen(f) =>
      s.(func := f, bReader := true, asked := s.asked + [f], rpc := if s.ulWriter > 0 then RSignal else RLockMx)
    case RSignal =>
      if wake < |s.w| && s.w[wake].pc.WAsleep? then Put(s, wake, s.w[wake].(pc := WWoken)).(rpc := RLockMx)
      else s.(rpc := RLockMx)
    case RLockMx => s.(mx := ByReader, rpc := RUnlock)
    case RUnlock => s.(sync := Free, rpc := RWait)
    case RWait => s.(mx := Free, rpc := RAsleep)
    case RAsleep => s
    case RWoken => s.(mx := ByReader, rpc := RUnlockMx)
    case RUnlockMx => s.(mx := Free, rpc := RLock2)
    case RLock2 => s.(sync := ByReader, rpc := RClose)
    case RClose => s.(got := s.got + [Contents(s)], pBuff := None, bReader := false, func := None, rpc := RLeave)
    case RLeave => s.(sync := Free, rpc := RIdle)
  }

  datatype Label =
    | Read(wake: nat)              // the reader takes a step
    | Write(i: nat)                // writer i takes a step
    | CallRead(test: Option<Test>) // read (no test) or cond_read is called
    | CallWrite(i: nat, v: int)    // writer i calls write with a buffer holding v

  predicate Internal(l: Label) {
    l.Read? || l.Write?
  }

  predicate Can(s: State, l: Label) {
    match l
    case Read(wake) => ReaderCan(s, wake)
    case Write(i) => WriterCan(s, i)
    case CallRead(_) => s.rpc.RIdle?
    case CallWrite(i, _) => i < |s.w| && s.w[i].pc.WIdle?
  }

  function Next(s: State, l: Label): State
    requires Can(s, l)
  {
    match l
    case Read(wake) => ReaderStep(s, wake)
    case Write(i) => WriterStep(s, i)
    case CallRead(f) => s.(rpc := RLock(f))
    case CallWrite(i, v) => Put(s, i, s.w[i].(pc := WLock, buffer := v))
  }

  /** t is reached from s by the labels, each enabled in turn. */
  ghost predicate Run(s: State, ls: seq<Label>, t: State)
    decreases |ls|
  {
    if ls == [] then s == t else Can(s, ls[0]) && Run(Next(s, ls[0]), ls[1..], t)
  }
}
