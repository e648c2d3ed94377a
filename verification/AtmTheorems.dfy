/** What the machine and its bank guarantee on every run. */
module AtmTheorems {
  import opened Wrappers
  import opened Bank
  import opened Atm
  import opened AtmInvariant

  /** A run goes on at its end. */
  lemma {:induction false} RunSplit(a: State, es: seq<Event>, e: Event)
    ensures Run(a, es + [e]) == (if Run(a, es).None? then None else Next(Run(a, es).value, e))
    decreases |es|
  {
    hide Next;
    if es != [] {
      assert (es + [e])[1..] == es[1..] + [e];
      if Next(a, es[0]).Some? { RunSplit(Next(a, es[0]).value, es[1..], e); }
    } else if Next(a, e).Some? {
      assert Run(Next(a, e).value, (es + [e])[1..]) == Next(a, e);
    }
  }

  ghost predicate Reachable(a: State) {
    exists table: Table, es: seq<Event> :: Run(Init(table), es) == Some(a)
  }

  lemma {:induction false} RunKeeps(a: State, es: seq<Event>)
    requires Inv(a) && Run(a, es).Some?
    ensures Inv(Run(a, es).value)
    decreases |es|
  {
    hide Inv, Next;
    if es != [] {
      NextKeeps(a, es[0]);
      RunKeeps(Next(a, es[0]).value, es[1..]);
    }
  }

  lemma ReachableInv(a: State)
    requires Reachable(a)
    ensures Inv(a)
  {
    var table, es :| Run(Init(table), es) == Some(a);
    InitOk(table);
    hide Inv;
    RunKeeps(Init(table), es);
  }

  // ---------- Deadlock ----------

  /** An event that the machine can take next. */
  function Offer(a: State): Event {
    match a.t
    case TStart =>
      (match a.s
       case START =>
         (match a.o
          case OFF => On
          case AwaitCash => MachCash(0)
          case SetCash(_) => MachSet
          case IDLE => InsertCard
          case ToSession => InsertCardI
          case SERVING => On)
       case ReadingCard => BadCard
       case SetCard(_) => CardSet
       case ReadingPin => CancelSession
       case SetPin(_) => PinSet
       case Choosing => CancelSession
       case ToTransaction(_) => ChooseI
       case TRANS => EndTrans
       case EJECT => EjectCard
       case DONE => SessionDone)
    case GetAcct(_) => AcctE(1)
    case GetAmount(_, _) => AmountE(0)
    case GetFrom => FromE(1)
    case GetTo(_) => ToE(1)
    case SameAcct => SameAcctE
    case GetAmountFor(_, _) => AmountE(0)
    case SetAmount(_) => AmountSet
    case CardGet(_) => CardGetE
    case PinGet(_, _) => PinGetE
    case Send(q) => BankSend(q)
    case Receive(_) => BankStatus(if a.reply.Some? then a.reply.value else Reply(0, 0, 0, 0))
    case SayInvalid(_) => InvalidPin
    case ReadNewPin(_) => NewPin(0)
    case SetNewPin(_, _) => NewPinSet
    case RollbackHold => RollbackE
    case HoldCard => HoldingCard
    case SayApproved(_, _) => ApprovedE
    case MachGet => MachGetE
    case AmountGet(_) => AmountGetE
    case CommitCash(_, _) => CommitE
    case PutCash(_, _) => CashSet
    case Dispense(x) => DispenseE(x)
    case CommitReceipt => CommitE
    case CommitDisplay(_) => CommitE
    case Display(x) => DisplayE(x)
    case StartEnvelope => StartEnv
    case InsertEnvelope => InsertEnv
    case RollbackExceeds => RollbackE
    case SayExceeds => ExceedsMch
    case RollbackAgain => RollbackE
    case Receipt => ReceiptE
    case Again => AgainE(0)
    case SayAnother => AnotherTrans
    case SayEnd => EndTrans
  }

  lemma OfferIsTaken(a: State)
    requires Inv(a) && (a.t.Receive? ==> a.reply.Some?)
    ensures Next(a, Offer(a)).Some?
  {
    hide WorkingCopy, Answered, VarsStep, LedgerStep, Answer;
  }

  /**
   The machine can always go on, except exactly when it waits for the bank's answer about a card
   that the bank does not know.
   */
  lemma DeadlockIffUnknownCard(a: State)
    requires Reachable(a)
    ensures (forall e :: Next(a, e).None?) <==> a.t.Receive? && a.last.card !in a.books.committed
  {
    ReachableInv(a);
    hide Next;
    if a.t.Receive? && a.reply.None? {
      forall e ensures Next(a, e).None? { NoAnswer(a, e); }
    } else {
      OfferIsTaken(a);
    }
  }

  lemma NoAnswer(a: State, e: Event)
    requires SyncOk(a) && a.t.Receive? && a.reply.None?
    ensures Next(a, e).None?
  {
    if Next(a, e).Some? { TransactionIsAlone(a, e); }
    hide VarsStep, LedgerStep, Answer, OverallStep, SessionStep;
  }

  // ---------- Transactions and PINs, as a property of the trace ----------

  /** The PIN of every card; no event changes it. */
  type Pins = map<int, int>

  function PinsOf(t: Table): Pins {
    map c | c in t :: t[c].pin
  }

  /**
   A watcher of the trace.  Open: a banksend for the card is not resolved yet; n counts invalidPIN
   since then, and `good` says that the last PIN given is the card's.
   */
  datatype Watch = Clear | Open(card: int, n: int, good: bool) | MustRollback | MustHold | Violated

  function Right(pins: Pins, card: int, p: int): bool {
    card in pins && p == pins[card]
  }

  function WatchStep(pins: Pins, w: Watch, e: Event): Watch {
    match w
    case Clear =>
      (match e
       case BankSend(q) => Open(q.card, 0, Right(pins, q.card, q.pin))
       case CommitE => Violated
       case RollbackE => Violated
       case InvalidPin => Violated
       case HoldingCard => Violated
       case _ => Clear)
    case Open(card, n, good) =>
      (match e
       case InvalidPin => if good then Violated else if n == 2 then MustRollback else Open(card, n + 1, good)
       case NewPin(p) => Open(card, n, Right(pins, card, p))
       case CommitE => if good && n <= 2 then Clear else Violated
       case RollbackE => Clear
       case BankSend(_) => Violated
       case AgainE(_) => Violated
       case EndTrans => Violated
       case AnotherTrans => Violated
       case HoldingCard => Violated
       case EjectCard => Violated
       case SessionDone => Violated
       case _ => w)
    case MustRollback => if e.RollbackE? then MustHold else Violated
    case MustHold => if e.HoldingCard? then Clear else Violated
    case Violated => Violated
  }

  function WatchRun(pins: Pins, w: Watch, es: seq<Event>): Watch
    decreases |es|
  {
    if es == [] then w else WatchRun(pins, WatchStep(pins, w, es[0]), es[1..])
  }

  predicate SamePins(pins: Pins, t: Table) {
    pins == PinsOf(t)
  }

  /** The watcher's state agrees with the machine's. */
  predicate Agree(pins: Pins, w: Watch, a: State) {
    var card := a.last.card;
    match a.t
    case RollbackHold => w == MustRollback
    case HoldCard => w == MustHold
    case Receive(_) => w == Open(card, 0, Right(pins, card, a.last.pin))
    case SayInvalid(h) => w == Open(card, h.attempt - 1, false)
    case ReadNewPin(h) => w == Open(card, h.attempt, false)
    case SetNewPin(h, p) => w == Open(card, h.attempt, Right(pins, card, p))
    case RollbackAgain => w.Open?
    case RollbackExceeds => w.Open?
    case _ => if Granted(a.t) then w.Open? && w.n <= 2 && w.good else w == Clear
  }

  lemma NextKeepsPins(pins: Pins, a: State, e: Event)
    requires Inv(a) && SamePins(pins, a.books.committed) && Next(a, e).Some?
    ensures SamePins(pins, Next(a, e).value.books.committed)
  {
    hide OverallStep, SessionStep, TransactionStep, VarsStep, LedgerStep, RequestOk, AmountOk, VarsOk, OrderOk;
  }

  /** What the machine has been told about the card's PIN. */
  predicate Told(pins: Pins, a: State) {
    var card := a.last.card;
    match a.t
    case Receive(_) => a.reply.Some? ==> (a.reply.value.pinStatus != 0 <==> Right(pins, card, a.last.pin))
    case SayInvalid(h) => 1 <= h.attempt <= 3
    case ReadNewPin(h) => 1 <= h.attempt <= 2
    case SetNewPin(h, _) => 1 <= h.attempt <= 2 && card in pins && h.realpin == pins[card]
    case _ => true
  }

  lemma MachineIsTold(pins: Pins, a: State)
    requires Inv(a) && SamePins(pins, a.books.committed)
    ensures Told(pins, a)
  {
    hide Written, Reported, VarsOk, SyncOk, OrderOk;
  }

  lemma ClearMeans(pins: Pins, a: State)
    ensures Agree(pins, Clear, a) <==> !Unresolved(a.t) && !a.t.HoldCard?
  {
  }

  /** With no request open, only banksend opens one, and nothing resolves one or holds the card. */
  lemma ClearEvents(a: State, e: Event)
    requires !Unresolved(a.t) && !a.t.HoldCard? && Next(a, e).Some?
    ensures !e.CommitE? && !e.RollbackE? && !e.InvalidPin? && !e.HoldingCard?
    ensures !Next(a, e).value.t.HoldCard? && (Unresolved(Next(a, e).value.t) ==> e.BankSend?)
    ensures e.BankSend? ==> Next(a, e).value.t.Receive? && Next(a, e).value.last == e.q
  {
    EventResolves(a, e);
    hide OverallStep, SessionStep, VarsStep, LedgerStep, Answer, Unresolved, RequestOf;
  }

  lemma NextKeepsClear(pins: Pins, a: State, e: Event)
    requires Agree(pins, Clear, a) && Next(a, e).Some?
    ensures Agree(pins, WatchStep(pins, Clear, e), Next(a, e).value)
  {
    var b := Next(a, e).value;
    ClearMeans(pins, a);
    ClearMeans(pins, b);
    hide Next, Unresolved;
    ClearEvents(a, e);
  }

  lemma GrantedKeepsOpen(pins: Pins, w: Watch, a: State, e: Event)
    requires SyncOk(a) && Agree(pins, w, a) && Next(a, e).Some? && w.Open? && Granted(a.t)
    ensures Agree(pins, WatchStep(pins, w, e), Next(a, e).value)
  {
    TransactionIsAlone(a, e);
    hide VarsStep, LedgerStep, Answer, OverallStep, SessionStep, SyncOk;
  }

  lemma RefusedKeepsOpen(pins: Pins, w: Watch, a: State, e: Event)
    requires SyncOk(a) && Agree(pins, w, a) && Next(a, e).Some? && w.Open?
    requires a.t.RollbackAgain? || a.t.RollbackExceeds?
    ensures Agree(pins, WatchStep(pins, w, e), Next(a, e).value)
  {
    TransactionIsAlone(a, e);
    hide VarsStep, LedgerStep, Answer, OverallStep, SessionStep, SyncOk;
  }

  lemma ReplyKeepsOpen(pins: Pins, w: Watch, a: State, e: Event)
    requires SyncOk(a) && Told(pins, a) && Agree(pins, w, a) && Next(a, e).Some? && w.Open? && a.t.Receive?
    ensures Agree(pins, WatchStep(pins, w, e), Next(a, e).value)
  {
    TransactionIsAlone(a, e);
    hide VarsStep, LedgerStep, Answer, OverallStep, SessionStep, SyncOk;
  }

  lemma PinKeepsOpen(pins: Pins, w: Watch, a: State, e: Event)
    requires SyncOk(a) && Told(pins, a) && Agree(pins, w, a) && Next(a, e).Some? && w.Open?
    requires a.t.SayInvalid? || a.t.ReadNewPin? || a.t.SetNewPin?
    ensures Agree(pins, WatchStep(pins, w, e), Next(a, e).value)
  {
    TransactionIsAlone(a, e);
    hide VarsStep, LedgerStep, Answer, OverallStep, SessionStep, SyncOk;
  }

  lemma NextKeepsOpen(pins: Pins, w: Watch, a: State, e: Event)
    requires SyncOk(a) && Told(pins, a) && Agree(pins, w, a) && Next(a, e).Some?
    requires w.Open?
    ensures Agree(pins, WatchStep(pins, w, e), Next(a, e).value)
  {
    if a.t.Receive? {
      ReplyKeepsOpen(pins, w, a, e);
    } else if a.t.SayInvalid? || a.t.ReadNewPin? || a.t.SetNewPin? {
      PinKeepsOpen(pins, w, a, e);
    } else if Granted(a.t) {
      GrantedKeepsOpen(pins, w, a, e);
    } else {
      RefusedKeepsOpen(pins, w, a, e);
    }
    hide Next, SyncOk, Told, WatchStep;
  }

  lemma NextKeepsMust(pins: Pins, w: Watch, a: State, e: Event)
    requires SyncOk(a) && Told(pins, a) && Agree(pins, w, a) && Next(a, e).Some?
    requires w == MustRollback || w == MustHold
    ensures Agree(pins, WatchStep(pins, w, e), Next(a, e).value)
  {
    if !a.t.TStart? { TransactionIsAlone(a, e); }
    hide VarsStep, LedgerStep, Answer, OverallStep, SessionStep;
  }

  lemma NextKeepsAgree(pins: Pins, w: Watch, a: State, e: Event)
    requires SyncOk(a) && Told(pins, a) && Agree(pins, w, a) && Next(a, e).Some?
    ensures Agree(pins, WatchStep(pins, w, e), Next(a, e).value)
  {
    assert w != Violated;
    hide Next, SyncOk, Told, WatchStep, Agree;
    if w == Clear {
      NextKeepsClear(pins, a, e);
    } else if w.Open? {
      NextKeepsOpen(pins, w, a, e);
    } else {
      NextKeepsMust(pins, w, a, e);
    }
  }

  lemma InvSync(a: State)
    requires Inv(a)
    ensures SyncOk(a)
  {
  }

  lemma {:induction false} RunKeepsAgree(pins: Pins, w: Watch, a: State, es: seq<Event>)
    requires Inv(a) && SamePins(pins, a.books.committed) && Agree(pins, w, a) && Run(a, es).Some?
    ensures var b := Run(a, es).value; Agree(pins, WatchRun(pins, w, es), b)
    decreases |es|
  {
    hide Inv, Agree, Told, SamePins, Next, WatchStep;
    if es != [] {
      NextKeeps(a, es[0]);
      NextKeepsPins(pins, a, es[0]);
      MachineIsTold(pins, a);
      assert SyncOk(a) by { InvSync(a); }
      NextKeepsAgree(pins, w, a, es[0]);
      RunKeepsAgree(pins, WatchStep(pins, w, es[0]), Next(a, es[0]).value, es[1..]);
    }
  }

  /**
   The trace of every run satisfies the watcher: each banksend is resolved by one commit or one
   rollback before the next banksend, `again`, or end of the session; a commit comes only after the
   card's own PIN and at most two invalidPIN; the third invalidPIN is followed at once by rollback
   and holdingcard; and invalidPIN is never said of the right PIN.
   */
  lemma EveryTraceIsAccepted(table: Table, es: seq<Event>)
    requires Run(Init(table), es).Some?
    ensures WatchRun(PinsOf(table), Clear, es) != Violated
  {
    InitOk(table);
    hide Inv, Next;
    RunKeepsAgree(PinsOf(table), Clear, Init(table), es);
  }

  /** At a commit the machine holds the PIN of the card, and the bank has approved the request. */
  lemma CommitIsAuthorised(a: State)
    requires Reachable(a) && Next(a, CommitE).Some?
    ensures a.last.card in a.books.committed
    ensures a.v.pin == Some(a.books.committed[a.last.card].pin)
    ensures Approved(a.books.committed[a.last.card], a.last)
    ensures Next(a, CommitE).value.books.committed
            == a.books.committed[a.last.card := Written(a.books.committed[a.last.card], a.last)]
  {
    ReachableInv(a);
    EventResolves(a, CommitE);
  }

  /** What display shows is the committed balance of the account of the inquiry that was sent. */
  lemma DisplayShowsBalance(a: State, x: int)
    requires Reachable(a) && Next(a, DisplayE(x)).Some?
    ensures a.last.transaction == INQUIRY && a.last.card in a.books.committed
    ensures x == Balance(a.books.committed[a.last.card], a.last.account)
  {
    ReachableInv(a);
  }

  /** A rollback leaves both copies of the table equal to what was committed. */
  lemma RollbackRestores(a: State)
    requires Reachable(a) && Next(a, RollbackE).Some?
    ensures Next(a, RollbackE).value.books == Books(a.books.committed, a.books.committed)
  {
    ReachableInv(a);
  }
}
