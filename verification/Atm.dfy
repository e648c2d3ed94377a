/**
 The automated teller machine: the processes OVERALL, SESSION, TRANSACTION and VARIABLES in
 parallel, connected to the bank.  Events that two processes share move both.
 */
module Atm {
  import opened Wrappers
  import opened Bank

  datatype Overall = OFF | AwaitCash | SetCash(cash: int) | IDLE | ToSession | SERVING

  datatype Session =
    | START | ReadingCard | SetCard(c: int) | ReadingPin | SetPin(p: int)
    | Choosing | ToTransaction(menu: int) | TRANS | EJECT | DONE

  /** What SEND is called with. */
  datatype Order = Order(m: int, account: int, from: int, to: int, amount: int)

  /** The parameters of HANDLEPIN. */
  datatype Pending = Pending(m: int, approved: int, realpin: int, val: int, attempt: int)

  datatype Transaction =
    | TStart
    | GetAcct(m: int) | GetAmount(m: int, account: int)
    | GetFrom | GetTo(f: int) | SameAcct | GetAmountFor(f: int, t: int)
    | SetAmount(d: Order)
    | CardGet(d: Order) | PinGet(d: Order, c: int) | Send(q: Request)
    | Receive(m: int)
    | SayInvalid(h: Pending)              // invalidPIN -> HANDLEPIN
    | ReadNewPin(h: Pending) | SetNewPin(h: Pending, p: int)
    | RollbackHold | HoldCard             // rollback -> holdingcard
    | SayApproved(m: int, val: int)       // approved -> COMPLETING
    | MachGet | AmountGet(cash: int)
    | CommitCash(cash: int, amount: int)  // commit -> machset -> dispense
    | PutCash(cash: int, amount: int) | Dispense(amount: int)
    | CommitReceipt                       // commit -> RECEIPT
    | CommitDisplay(val: int) | Display(val: int)
    | StartEnvelope | InsertEnvelope
    | RollbackExceeds | SayExceeds        // rollback -> exceedsMch -> ANOTHER
    | RollbackAgain                       // rollback -> ANOTHER
    | Receipt | Again | SayAnother | SayEnd

  datatype Vars = Vars(amount: Option<int>, card: Option<int>, mach: Option<int>, pin: Option<int>)

  /** History: money since `on`, and since the start. */
  datatype Ledger = Ledger(loaded: int, out: int, dispensed: int, deposits: int, toSavings: int)

  datatype State = State(
    o: Overall, s: Session, t: Transaction, v: Vars,
    books: Books, reply: Option<Reply>,
    l: Ledger,
    last: Request)   // history: the last banksend

  function Init(table: Table): State {
    State(OFF, START, TStart, Vars(None, None, None, None), Books(table, table), None, Ledger(0, 0, 0, 0, 0),
          Request(0, 0, 0, 0, 0, 0, 0))
  }

  /** Inputs carry the value read; `cancel` of the session and of the transaction are told apart. */
  datatype Event =
    | On | MachCash(x: int) | MachSet | InsertCard | OffE | InsertCardI
    | ReadCard(c: int) | BadCard | CardSet | ReadPin(p: int) | PinSet | Choose(menu: int) | ChooseI
    | CancelSession | EjectCard | SessionDone
    | EndTrans | AnotherTrans | HoldingCard
    | AcctE(a: int) | AmountE(x: int) | FromE(a: int) | ToE(a: int) | SameAcctE | CancelTransaction
    | AmountSet | CardGetE | PinGetE | BankSend(q: Request) | BankStatus(r: Reply)
    | InvalidPin | NewPin(p: int) | NewPinSet | ApprovedE | RollbackE | CommitE
    | MachGetE | AmountGetE | CashSet | DispenseE(x: int) | ExceedsMch | StartEnv | InsertEnv | DisplayE(x: int)
    | ReceiptE | AgainE(x: int)

  // ---------- OVERALL ----------

  function OverallStep(o: Overall, e: Event): Option<Overall> {
    match e
    case On => if o.OFF? then Some(AwaitCash) else None
    case MachCash(x) => if o.AwaitCash? then Some(SetCash(x)) else None
    case MachSet => if o.SetCash? then Some(IDLE) else None
    case InsertCard => if o.IDLE? then Some(ToSession) else None
    case OffE => if o.IDLE? then Some(OFF) else None
    case InsertCardI => if o.ToSession? then Some(SERVING) else None
    case SessionDone => if o.SERVING? then Some(IDLE) else None
    case _ => Some(o)
  }

  // ---------- SESSION ----------

  function SessionStep(s: Session, e: Event): Option<Session> {
    match e
    case InsertCardI => if s.START? then Some(ReadingCard) else None
    case ReadCard(c) => if s.ReadingCard? then Some(SetCard(c)) else None
    case BadCard => if s.ReadingCard? then Some(EJECT) else None
    case CardSet => if s.SetCard? then Some(ReadingPin) else None
    case ReadPin(p) => if s.ReadingPin? then Some(SetPin(p)) else None
    case PinSet => if s.SetPin? then Some(Choosing) else None
    case CancelSession => if s.ReadingPin? || s.Choosing? then Some(EJECT) else None
    case Choose(menu) => if s.Choosing? && 1 <= menu <= 4 then Some(ToTransaction(menu)) else None
    case ChooseI => if s.ToTransaction? then Some(TRANS) else None
    case EndTrans => if s.TRANS? then Some(EJECT) else None
    case AnotherTrans => if s.TRANS? then Some(Choosing) else None
    case HoldingCard => if s.TRANS? then Some(DONE) else None
    case EjectCard => if s.EJECT? then Some(DONE) else None
    case SessionDone => if s.DONE? then Some(START) else None
    case _ => Some(s)
  }

  // ---------- TRANSACTION ----------

  function Specifics(menu: int): Transaction {
    if menu == TRANSFER then GetFrom else GetAcct(menu)
  }

  function Completing(m: int, val: int): Transaction {
    if m == WITHDRAW then MachGet
    else if m == TRANSFER then CommitReceipt
    else if m == DEPOSIT then StartEnvelope
    else CommitDisplay(val)
  }

  function Received(m: int, r: Reply): Transaction {
    if r.pinStatus == 0 then SayInvalid(Pending(m, r.approved, r.pin, r.balance, 1))
    else if r.approved != 0 then SayApproved(m, r.balance)
    else RollbackAgain
  }

  function HandlePin(h: Pending): Transaction {
    if h.attempt >= 3 then RollbackHold else ReadNewPin(h)
  }

  function PinTried(h: Pending, p: int): Transaction {
    if p == h.realpin then (if h.approved != 0 then SayApproved(h.m, h.val) else RollbackAgain)
    else SayInvalid(h.(attempt := h.attempt + 1))
  }

  /** The request that the machine sends: for a transfer the account is the one to take from. */
  function RequestOf(d: Order, c: int, p: int): Request {
    Request(d.m, c, p, if d.m == TRANSFER then d.from else d.account, d.from, d.to, d.amount)
  }

  /** The menu of the session when the two processes meet at choose_i. */
  function MenuOf(s: Session): int {
    if s.ToTransaction? then s.menu else 0
  }

  function TransactionStep(t: Transaction, s: Session, v: Vars, reply: Option<Reply>, e: Event): Option<Transaction> {
    match e
    case ChooseI => if t.TStart? then Some(Specifics(MenuOf(s))) else None
    case AcctE(a) =>
      if !t.GetAcct? then None
      else if t.m == INQUIRY then Some(CardGet(Order(t.m, a, 1, 1, 0)))
      else Some(GetAmount(t.m, a))
    case AmountE(x) =>
      if t.GetAmount? then Some(SetAmount(Order(t.m, t.account, 1, 1, x)))
      else if t.GetAmountFor? then Some(SetAmount(Order(TRANSFER, 1, t.f, t.t, x)))
      else None
    case FromE(a) => if t.GetFrom? then Some(GetTo(a)) else None
    case ToE(a) => if t.GetTo? then Some(if t.f == a then SameAcct else GetAmountFor(t.f, a)) else None
    case SameAcctE => if t.SameAcct? then Some(GetFrom) else None
    case CancelTransaction =>
      if t.GetAcct? || t.GetAmount? || t.GetFrom? || t.GetTo? || t.GetAmountFor? then Some(Again)
      else if t.InsertEnvelope? then Some(RollbackAgain)
      else None
    case AmountSet => if t.SetAmount? then Some(CardGet(t.d)) else None
    case CardGetE => if t.CardGet? && v.card.Some? then Some(PinGet(t.d, v.card.value)) else None
    case PinGetE => if t.PinGet? && v.pin.Some? then Some(Send(RequestOf(t.d, t.c, v.pin.value))) else None
    case BankSend(q) => if t.Send? && t.q == q then Some(Receive(q.transaction)) else None
    case BankStatus(r) => if t.Receive? && reply == Some(r) then Some(Received(t.m, r)) else None
    case InvalidPin => if t.SayInvalid? then Some(HandlePin(t.h)) else None
    case NewPin(p) => if t.ReadNewPin? then Some(SetNewPin(t.h, p)) else None
    case NewPinSet => if t.SetNewPin? then Some(PinTried(t.h, t.p)) else None
    case ApprovedE => if t.SayApproved? then Some(Completing(t.m, t.val)) else None
    case RollbackE =>
      if t.RollbackHold? then Some(HoldCard)
      else if t.RollbackExceeds? then Some(SayExceeds)
      else if t.RollbackAgain? then Some(Again)
      else None
    case CommitE =>
      if t.CommitCash? then Some(PutCash(t.cash - t.amount, t.amount))
      else if t.CommitReceipt? then Some(Receipt)
      else if t.CommitDisplay? then Some(Display(t.val))
      else None
    case HoldingCard => if t.HoldCard? then Some(TStart) else None
    case MachGetE => if t.MachGet? && v.mach.Some? then Some(AmountGet(v.mach.value)) else None
    case AmountGetE =>
      if t.AmountGet? && v.amount.Some? then
        Some(if t.cash >= v.amount.value then CommitCash(t.cash, v.amount.value) else RollbackExceeds)
      else None
    case CashSet => if t.PutCash? then Some(Dispense(t.amount)) else None
    case DispenseE(x) => if t.Dispense? && t.amount == x then Some(Receipt) else None
    case ExceedsMch => if t.SayExceeds? then Some(Again) else None
    case StartEnv => if t.StartEnvelope? then Some(InsertEnvelope) else None
    case InsertEnv => if t.InsertEnvelope? then Some(CommitReceipt) else None
    case DisplayE(x) => if t.Display? && t.val == x then Some(Receipt) else None
    case ReceiptE => if t.Receipt? then Some(Again) else None
    case AgainE(x) => if t.Again? then Some(if x == 1 then SayAnother else SayEnd) else None
    case AnotherTrans => if t.SayAnother? then Some(TStart) else None
    case EndTrans => if t.SayEnd? then Some(TStart) else None
    case _ => Some(t)
  }

  // ---------- VARIABLES, the bank, and the ledger ----------

  function VarsStep(a: State, e: Event): Vars {
    match e
    case MachSet => if a.o.SetCash? then a.v.(mach := Some(a.o.cash)) else a.v
    case CashSet => if a.t.PutCash? then a.v.(mach := Some(a.t.cash)) else a.v
    case CardSet => if a.s.SetCard? then a.v.(card := Some(a.s.c)) else a.v
    case PinSet => if a.s.SetPin? then a.v.(pin := Some(a.s.p)) else a.v
    case NewPinSet => if a.t.SetNewPin? then a.v.(pin := Some(a.t.p)) else a.v
    case AmountSet => if a.t.SetAmount? then a.v.(amount := Some(a.t.d.amount)) else a.v
    case _ => a.v
  }

  function ToBank(e: Event): Message {
    match e
    case BankSend(q) => Process(q)
    case CommitE => Commit
    case RollbackE => Rollback
    case _ => Other
  }

  function LedgerStep(a: State, e: Event): Ledger {
    match e
    case MachSet => if a.o.SetCash? then a.l.(loaded := a.o.cash, out := 0) else a.l
    case DispenseE(x) => a.l.(out := a.l.out + x, dispensed := a.l.dispensed + x)
    case CommitE =>
      if a.last.transaction != DEPOSIT then a.l
      else
        var more := if a.last.account == 1 then 0 else a.last.amount;
        a.l.(deposits := a.l.deposits + a.last.amount, toSavings := a.l.toSavings + more)
    case _ => a.l
  }

  function Next(a: State, e: Event): Option<State> {
    var o := OverallStep(a.o, e);
    var s := SessionStep(a.s, e);
    var t := TransactionStep(a.t, a.s, a.v, a.reply, e);
    if o.None? || s.None? || t.None? then None else
    var (books, r) := Answer(a.books, ToBank(e));
    Some(State(o.value, s.value, t.value, VarsStep(a, e), books,
               if e.BankSend? then r else if e.BankStatus? then None else a.reply,
               LedgerStep(a, e),
               if e.BankSend? then e.q else a.last))
  }

  function Run(a: State, es: seq<Event>): Option<State>
    decreases |es|
  {
    if es == [] then Some(a) else
    var b := Next(a, es[0]);
    if b.None? then None else Run(b.value, es[1..])
  }
}
