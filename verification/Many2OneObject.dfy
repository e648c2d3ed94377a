/**
 Many2OneChannel with the fields it has in the library.  A call of read, cond_read or write is
 resumed at one program counter and runs to the next; a condition variable is the set of threads
 that wait on it, so a thread that was signalled finds itself outside that set.
 */
module Many2OneObject {
  import opened Wrappers
  import opened Many2One
  import opened Buffers

  function WriterAt(p: WriterPc): WriterPc {
    if p.WWoken? then WAsleep else p
  }

  function ReaderAt(p: ReaderPc): ReaderPc {
    if p.RWoken? then RAsleep else p
  }

  class Many2OneChannel {
    var m_sync: Owner
    var m_cond: set<nat>        // the writers that wait
    var m_mxReader: Owner
    var m_cdReader: bool        // the reader waits
    var m_bReader: bool
    var m_ulWriter: int
    var m_pBuff: Buffer?
    var m_func: Option<Test>

    /** The pointer: a buffer that holds what its writer committed. */
    ghost predicate Pointer(s: State)
      reads this
    {
      if s.pBuff.None? then m_pBuff == null
      else s.pBuff.value < |s.commits| && m_pBuff != null && m_pBuff.data == s.commits[s.pBuff.value]
    }

    ghost predicate Shows(s: State)
      reads this
    {
      && m_sync == s.sync && m_mxReader == s.mx
      && (forall i: nat :: i in m_cond <==> i < |s.w| && s.w[i].pc.WAsleep?)
      && (m_cdReader <==> s.rpc.RAsleep?)
      && m_bReader == s.bReader && m_ulWriter == s.ulWriter && m_func == s.func
      && Pointer(s)
    }

    constructor (n: nat)
      ensures Shows(Init(n))
    {
      m_sync, m_mxReader := Free, Free;
      m_cond, m_cdReader := {}, false;
      m_bReader, m_ulWriter := false, 0;
      m_pBuff, m_func := null, None;
    }

    /** write up to its commit, by writer i. */
    method Write(i: nat, at: WriterPc, buffer: Buffer, ghost s: State) returns (ran: bool, next: WriterPc)
      requires Shows(s) && i < |s.w| && at == WriterAt(s.w[i].pc) && buffer.data == s.w[i].buffer
      requires at.WLock? || at.WEnter? || at.WTest? || at.WAsleep?
      modifies this
      ensures ran <==> WriterCan(s, i)
      ensures ran ==> Shows(WriterStep(s, i)) && next == WriterAt(WriterStep(s, i).w[i].pc)
      ensures !ran ==> Shows(s)
    {
      ran := true;
      match at {
        case WLock =>
          ran, next := m_sync == Free, WEnter;
          if ran {
            m_sync := ByWriter(i);
          }
        case WEnter =>
          m_ulWriter := m_ulWriter + 1;
          next := WTest;
        case WTest =>
          // the condition of the while loop
          if !m_bReader || m_pBuff != null || (m_func.Some? && !m_func.value(buffer.data)) {
            m_sync := Free;
            m_cond := m_cond + {i};
            next := WAsleep;
          } else {
            m_pBuff := buffer;
            next := WLockMx;
          }
        case WAsleep =>
          ran, next := i !in m_cond && m_sync == Free, WTest;
          if ran {
            m_sync := ByWriter(i);
          }
      }
    }

    /** The rest of write: wake up the reader and leave. */
    method FinishWrite(i: nat, at: WriterPc, ghost s: State) returns (ran: bool, next: WriterPc)
      requires Shows(s) && i < |s.w| && at == WriterAt(s.w[i].pc)
      requires at.WLockMx? || at.WSignal? || at.WUnlockMx? || at.WLeave?
      modifies this
      ensures ran <==> WriterCan(s, i)
      ensures ran ==> Shows(WriterStep(s, i)) && next == WriterAt(WriterStep(s, i).w[i].pc)
      ensures !ran ==> Shows(s)
    {
      ran := true;
      match at {
        case WLockMx =>
          ran, next := m_mxReader == Free, WSignal;
          if ran {
            m_mxReader := ByWriter(i);
          }
        case WSignal =>
          m_cdReader := false;
          next := WUnlockMx;
        case WUnlockMx =>
          m_mxReader := Free;
          next := WLeave;
        case WLeave =>
          m_ulWriter := m_ulWriter - 1;
          m_sync := Free;
          next := WIdle;
      }
    }

    /** read, or cond_read, up to its wait; wake is the writer that its signal wakes, if any waits. */
    method Read(at: ReaderPc, wake: nat, ghost s: State) returns (ran: bool, next: ReaderPc)
      requires Shows(s) && at == ReaderAt(s.rpc)
      requires at.RLock? || at.ROpen? || at.RSignal? || at.RLockMx? || at.RUnlock? || at.RWait?
      modifies this
      ensures ran <==> ReaderCan(s, wake)
      ensures ran ==> Shows(ReaderStep(s, wake)) && next == ReaderAt(ReaderStep(s, wake).rpc)
      ensures !ran ==> Shows(s)
    {
      ran := true;
      match at {
        case RLock(func) =>
          ran, next := m_sync == Free, ROpen(func);
          if ran {
            m_sync := ByReader;
          }
        case ROpen(func) =>
          m_func := func;
          m_bReader := true;
          next := if m_ulWriter > 0 then RSignal else RLockMx;
        case RSignal =>
          // one of the threads that wait leaves the wait set
          ran, next := m_cond == {} || wake in m_cond, RLockMx;
          if ran {
            m_cond := m_cond - {wake};
          }
        case RLockMx =>
          ran, next := m_mxReader == Free, RUnlock;
          if ran {
            m_mxReader := ByReader;
          }
        case RUnlock =>
          m_sync := Free;
          next := RWait;
        case RWait =>
          m_mxReader := Free;
          m_cdReader := true;
          next := RAsleep;
      }
    }

    /** The rest of read, or cond_read, after its wait; what it copies is the caller's. */
    method FinishRead(at: ReaderPc, wake: nat, ghost s: State) returns (ran: bool, next: ReaderPc, copied: Option<int>)
      requires Shows(s) && at == ReaderAt(s.rpc) && (s.rpc.RClose? ==> s.pBuff.Some?)
      requires at.RAsleep? || at.RUnlockMx? || at.RLock2? || at.RClose? || at.RLeave?
      modifies this
      ensures ran <==> ReaderCan(s, wake)
      ensures ran ==> Shows(ReaderStep(s, wake)) && next == ReaderAt(ReaderStep(s, wake).rpc)
      ensures ran ==> ReaderStep(s, wake).got == s.got + (if copied.Some? then [copied.value] else [])
      ensures ran ==> (copied.Some? <==> at.RClose?)
      ensures !ran ==> Shows(s)
    {
      ran, copied := true, None;
      match at {
        case RAsleep =>
          ran, next := !m_cdReader && m_mxReader == Free, RUnlockMx;
          if ran {
            m_mxReader := ByReader;
          }
        case RUnlockMx =>
          m_mxReader := Free;
          next := RLock2;
        case RLock2 =>
          ran, next := m_sync == Free, RClose;
          if ran {
            m_sync := ByReader;
          }
        case RClose =>
          copied := Some(m_pBuff.data);
          m_pBuff := null;
          m_bReader := false;
          m_func := None;
          next := RLeave;
        case RLeave =>
          m_sync := Free;
          next := RIdle;
      }
    }
  }
}
