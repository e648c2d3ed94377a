/** The invariant of the machine with its bank, kept by every event. */
module AtmInvariant {
  import opened Wrappers
  import opened Bank
  import opened Atm

  /**
   TRANSACTION is at its start exactly when SESSION is outside TRANS, and SESSION exactly when
   OVERALL does not serve.
   */
  predicate SyncOk(a: State) {
    && (a.s.TRANS? <==> !a.t.TStart?)
    && (a.o.SERVING? <==> !a.s.START?)
  }

  /** Every variable is set before it is asked for. */
  predicate VarsOk(a: State) {
    && (a.o.IDLE? || a.o.ToSession? || a.o.SERVING? ==> a.v.mach.Some?)
    && (a.s.ReadingPin? || a.s.SetPin? || a.s.Choosing? || a.s.ToTransaction? || a.s.TRANS? ==> a.v.card.Some?)
    && (a.s.Choosing? || a.s.ToTransaction? || a.s.TRANS? ==> a.v.pin.Some?)
    && (a.s.ToTransaction? ==> 1 <= a.s.menu <= 4)
  }

  /** The order that is being put together keeps to one menu entry. */
  predicate OrderOk(t: Transaction, v: Vars) {
    match t
    case GetAcct(m) => m == WITHDRAW || m == DEPOSIT || m == INQUIRY
    case GetAmount(m, _) => m == WITHDRAW || m == DEPOSIT
    case SetAmount(d) => d.m == WITHDRAW || d.m == DEPOSIT || d.m == TRANSFER
    case CardGet(d) => 1 <= d.m <= 4 && (d.m == INQUIRY || v.amount == Some(d.amount))
    case PinGet(d, c) => 1 <= d.m <= 4 && (d.m == INQUIRY || v.amount == Some(d.amount))
    case Send(q) =>
      1 <= q.transaction <= 4 && (q.transaction == INQUIRY || v.amount == Some(q.amount)) && v.pin == Some(q.pin)
    case _ => true
  }

  /** A request has been sent and neither committed nor rolled back. */
  predicate Unresolved(t: Transaction) {
    t.Receive? || t.SayInvalid? || t.ReadNewPin? || t.SetNewPin? || t.RollbackHold?
    || t.RollbackAgain? || t.RollbackExceeds? || Granted(t)
  }

  /** The bank has approved the request and the PIN has been given. */
  predicate Granted(t: Transaction) {
    t.SayApproved? || t.MachGet? || t.AmountGet? || t.CommitCash? || t.CommitReceipt? || t.CommitDisplay?
    || t.StartEnvelope? || t.InsertEnvelope?
  }

  predicate Known(a: State) {
    a.last.card in a.books.committed
  }

  function WorkingCopy(a: State): Table {
    if Unresolved(a.t) && Known(a) then
      a.books.committed[a.last.card := Written(a.books.committed[a.last.card], a.last)]
    else a.books.committed
  }

  function Answered(a: State): Option<Reply> {
    if a.t.Receive? && Known(a) then Some(ReplyTo(a.books.committed[a.last.card], a.last)) else None
  }

  /** The working copy differs from the committed one by the unresolved request only. */
  predicate BooksOk(a: State) {
    && a.books.working == WorkingCopy(a)
    && (Unresolved(a.t) && !Known(a) ==> a.t.Receive?)
    && a.reply == Answered(a)
  }

  /** HANDLEPIN works with the bank's answer to the last request. */
  predicate PinEntry(h: Pending, r: Row, q: Request) {
    && h.m == q.transaction && h.realpin == r.pin && h.val == Reported(r, q)
    && h.approved == (if Approved(r, q) then 1 else 0)
    && 1 <= h.attempt
  }

  /** The variables agree with the unresolved request. */
  predicate AmountOk(a: State) {
    && (Unresolved(a.t) ==> 1 <= a.last.transaction <= 4)
    && (Unresolved(a.t) ==> a.last.transaction == INQUIRY || a.v.amount == Some(a.last.amount))
    && (a.t.Receive? ==> a.t.m == a.last.transaction && a.v.pin == Some(a.last.pin))
  }

  /** What is known at each point of the unresolved request q on row r. */
  predicate RowOk(t: Transaction, v: Vars, r: Row, q: Request) {
    && (Granted(t) ==> Approved(r, q) && v.pin == Some(r.pin))
    && match t
       case SayInvalid(h) => PinEntry(h, r, q) && h.attempt <= 3
       case ReadNewPin(h) => PinEntry(h, r, q) && h.attempt <= 2
       case SetNewPin(h, _) => PinEntry(h, r, q) && h.attempt <= 2
       case SayApproved(m, val) => m == q.transaction && val == Reported(r, q)
       case MachGet => q.transaction == WITHDRAW
       case AmountGet(cash) => q.transaction == WITHDRAW && v.mach == Some(cash)
       case CommitCash(cash, amount) =>
         q.transaction == WITHDRAW && v.mach == Some(cash) && amount == q.amount && amount <= cash
       case StartEnvelope => q.transaction == DEPOSIT
       case InsertEnvelope => q.transaction == DEPOSIT
       case CommitReceipt => q.transaction == TRANSFER || q.transaction == DEPOSIT
       case CommitDisplay(val) => q.transaction == INQUIRY && val == Reported(r, q)
       case _ => true
  }

  predicate RequestOk(a: State) {
    Unresolved(a.t) && Known(a) ==> RowOk(a.t, a.v, a.books.committed[a.last.card], a.last)
  }

  /** The value to be displayed is the committed balance of the account asked for. */
  predicate DisplayOk(a: State) {
    a.t.Display? ==>
      && a.last.transaction == INQUIRY && Known(a)
      && a.t.val == Balance(a.books.committed[a.last.card], a.last.account)
  }

  predicate Inv(a: State) {
    && SyncOk(a) && VarsOk(a) && OrderOk(a.t, a.v) && BooksOk(a) && AmountOk(a) && RequestOk(a)
    && DisplayOk(a)
  }

  lemma InitOk(table: Table)
    ensures Inv(Init(table))
  {
  }

  lemma NextKeepsSync(a: State, e: Event)
    requires SyncOk(a) && Next(a, e).Some?
    ensures SyncOk(Next(a, e).value)
  {
    hide VarsStep, LedgerStep, Answer;
  }

  lemma NextKeepsVars(a: State, e: Event)
    requires SyncOk(a) && VarsOk(a) && Next(a, e).Some?
    ensures VarsOk(Next(a, e).value)
  {
    hide LedgerStep, Answer;
  }

  lemma NextKeepsOrder(a: State, e: Event)
    requires SyncOk(a) && VarsOk(a) && OrderOk(a.t, a.v) && Next(a, e).Some?
    ensures OrderOk(Next(a, e).value.t, Next(a, e).value.v)
  {
    hide OverallStep, LedgerStep, Answer;
  }

  /** Events that involve OVERALL or SESSION but not TRANSACTION, or start a transaction. */
  predicate Outer(e: Event) {
    || e.On? || e.MachCash? || e.MachSet? || e.InsertCard? || e.OffE? || e.InsertCardI?
    || e.ReadCard? || e.BadCard? || e.CardSet? || e.ReadPin? || e.PinSet? || e.Choose? || e.ChooseI?
    || e.CancelSession? || e.EjectCard? || e.SessionDone?
  }

  /** During a transaction nothing else happens. */
  lemma TransactionIsAlone(a: State, e: Event)
    requires SyncOk(a) && !a.t.TStart? && Next(a, e).Some?
    ensures !Outer(e)
  {
    hide VarsStep, LedgerStep, Answer;
  }

  /** Which events open and resolve a request. */
  lemma EventResolves(a: State, e: Event)
    requires Next(a, e).Some?
    ensures var t := Next(a, e).value.t;
            match e
            case BankSend(_) => !Unresolved(a.t) && t.Receive?
            case BankStatus(_) => a.t.Receive? && Unresolved(t) && !t.Receive?
            case CommitE => Granted(a.t) && !Unresolved(t)
            case RollbackE => Unresolved(a.t) && !a.t.Receive? && !Unresolved(t)
            case _ => Unresolved(t) == Unresolved(a.t) && t.Receive? == a.t.Receive?
  {
    hide OverallStep, SessionStep, VarsStep, LedgerStep, Answer;
  }

  lemma NextKeepsBooks(a: State, e: Event)
    requires BooksOk(a) && Next(a, e).Some?
    ensures BooksOk(Next(a, e).value)
  {
    EventResolves(a, e);
    hide Written, ReplyTo, OverallStep, SessionStep, VarsStep, LedgerStep, Unresolved;
    if e.BankStatus? { assert a.reply == Some(e.r); }
    hide TransactionStep;
  }

  lemma SendSetsAmount(a: State, e: Event)
    requires OrderOk(a.t, a.v) && e.BankSend? && Next(a, e).Some?
    ensures AmountOk(Next(a, e).value)
  {
    hide OverallStep, SessionStep, LedgerStep, Answer;
  }

  lemma OpenKeepsAmount(a: State, e: Event)
    requires SyncOk(a) && AmountOk(a) && Unresolved(a.t) && !e.BankSend? && Next(a, e).Some?
    ensures AmountOk(Next(a, e).value)
  {
    TransactionIsAlone(a, e);
    hide OverallStep, SessionStep, LedgerStep, Answer, SyncOk;
  }

  lemma NextKeepsAmount(a: State, e: Event)
    requires SyncOk(a) && OrderOk(a.t, a.v) && AmountOk(a) && Next(a, e).Some?
    ensures AmountOk(Next(a, e).value)
  {
    EventResolves(a, e);
    if e.BankSend? { SendSetsAmount(a, e); } else if Unresolved(a.t) { OpenKeepsAmount(a, e); }
    hide Next, SyncOk, OrderOk, Unresolved;
  }

  lemma ReceiveIsOk(t: Transaction, v: Vars, r: Row, q: Request)
    requires t.Receive?
    ensures RowOk(t, v, r, q)
  {
  }

  lemma PinStep(a: State, e: Event, r: Row)
    requires SyncOk(a) && AmountOk(a) && Unresolved(a.t) && !Granted(a.t) && RowOk(a.t, a.v, r, a.last)
             && Next(a, e).Some?
    requires a.reply.Some? ==> a.reply == Some(ReplyTo(r, a.last))
    ensures var b := Next(a, e).value; Unresolved(b.t) ==> RowOk(b.t, b.v, r, a.last)
  {
    TransactionIsAlone(a, e);
    hide Written, Reported, LedgerStep, Answer, Approved, OverallStep, SessionStep, SyncOk;
  }

  lemma GrantedStep(a: State, e: Event, r: Row)
    requires SyncOk(a) && AmountOk(a) && Granted(a.t) && RowOk(a.t, a.v, r, a.last) && Next(a, e).Some?
    ensures var b := Next(a, e).value; Unresolved(b.t) ==> RowOk(b.t, b.v, r, a.last)
  {
    TransactionIsAlone(a, e);
    hide Written, Reported, LedgerStep, Answer, Approved, OverallStep, SessionStep, SyncOk;
  }

  lemma RowStep(a: State, e: Event, r: Row)
    requires SyncOk(a) && AmountOk(a) && Unresolved(a.t) && RowOk(a.t, a.v, r, a.last) && Next(a, e).Some?
    requires a.reply.Some? ==> a.reply == Some(ReplyTo(r, a.last))
    ensures var b := Next(a, e).value; Unresolved(b.t) ==> RowOk(b.t, b.v, r, a.last)
  {
    hide SyncOk, AmountOk, Next, RowOk, Granted;
    if Granted(a.t) { GrantedStep(a, e, r); } else { PinStep(a, e, r); }
  }

  lemma NextKeepsRequest(a: State, e: Event)
    requires Inv(a) && Next(a, e).Some?
    ensures RequestOk(Next(a, e).value)
  {
    hide Written, ReplyTo, OverallStep, SessionStep, LedgerStep, VarsStep, RowOk, OrderOk, VarsOk;
    EventResolves(a, e);
    if Unresolved(a.t) && Known(a) {
      RowStep(a, e, a.books.committed[a.last.card]);
    }
    var b := Next(a, e).value;
    if b.t.Receive? && Known(b) {
      ReceiveIsOk(b.t, b.v, b.books.committed[b.last.card], b.last);
    }
    hide Unresolved, TransactionStep;
  }

  lemma NextKeepsDisplay(a: State, e: Event)
    requires SyncOk(a) && BooksOk(a) && RequestOk(a) && DisplayOk(a) && Next(a, e).Some?
    ensures DisplayOk(Next(a, e).value)
  {
    hide VarsStep, LedgerStep, OverallStep, SessionStep;
    if !a.t.TStart? { TransactionIsAlone(a, e); }
    hide SyncOk, Approved;
  }

  lemma NextKeeps(a: State, e: Event)
    requires Inv(a) && Next(a, e).Some?
    ensures Inv(Next(a, e).value)
  {
    hide SyncOk, VarsOk, OrderOk, BooksOk, AmountOk, RequestOk, DisplayOk, Next;
    NextKeepsSync(a, e);
    NextKeepsVars(a, e);
    NextKeepsOrder(a, e);
    NextKeepsBooks(a, e);
    NextKeepsAmount(a, e);
    NextKeepsRequest(a, e);
    NextKeepsDisplay(a, e);
  }
}
