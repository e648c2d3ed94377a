/**
 What the machine may do next, told from its trace alone: a log keeps the last value of every kind of
 entry, and the last two events with those values decide which events can follow.  The processes of
 the machine do not occur in it.
 */
module Teller {
  import opened Wrappers
  import opened Bank
  import opened Atm
  import AI = AtmInvariant
  import AT = AtmTheorems

  /** The last entry of each kind; `answer` is the bank's to the last banksend. */
  datatype Log = Log(
    before: Event, last: Event,
    menu: int, card: int, pin: int, account: int, from: int, to: int, amount: int,
    cash: int,      // what the machine has recorded as its money
    wrong: nat,     // how often invalidPIN since the last bankstatus
    got: Reply,     // the last bankstatus
    books: Books, answer: Option<Reply>)

  function Fresh(table: Table): Log {
    Log(OffE, OffE, 0, 0, 0, 0, 0, 0, 0, 0, 0, Reply(0, 0, 0, 0), Books(table, table), None)
  }

  /** The entry that the event e is. */
  function Noted(c: Log, e: Event): Log {
    match e
    case Choose(menu) => c.(menu := menu)
    case ReadCard(card) => c.(card := card)
    case ReadPin(p) => c.(pin := p)
    case NewPin(p) => c.(pin := p)
    case AcctE(account) => c.(account := account)
    case FromE(account) => c.(from := account)
    case ToE(account) => c.(to := account)
    case AmountE(x) => c.(amount := x)
    case MachCash(x) => c.(cash := x)
    case CashSet => c.(cash := c.cash - c.amount)
    case BankStatus(r) => c.(got := r, wrong := 0)
    case InvalidPin => c.(wrong := c.wrong + 1)
    case BankSend(q) => var (books, answer) := Answer(c.books, Process(q)); c.(books := books, answer := answer)
    case CommitE => c.(books := Answer(c.books, Commit).0)
    case RollbackE => c.(books := Answer(c.books, Rollback).0)
    case _ => c
  }

  function Logged(c: Log, e: Event): Log {
    Noted(c, e).(before := c.last, last := e)
  }

  function LogOf(table: Table, es: seq<Event>): Log
    decreases |es|
  {
    if es == [] then Fresh(table) else Logged(LogOf(table, es[..|es| - 1]), es[|es| - 1])
  }

  /** The request that the entries amount to. */
  function Entered(c: Log): Request {
    if c.menu == TRANSFER then Request(TRANSFER, c.card, c.pin, c.from, c.from, c.to, c.amount)
    else if c.menu == INQUIRY then Request(INQUIRY, c.card, c.pin, c.account, 1, 1, 0)
    else Request(c.menu, c.card, c.pin, c.account, 1, 1, c.amount)
  }

  /** After the PIN is found right. */
  predicate AfterPin(c: Log, e: Event) {
    if c.got.approved != 0 then e.ApprovedE? else e.RollbackE?
  }

  /** What can follow while the machine is outside a transaction. */
  predicate FollowsOuter(last: Event, e: Event) {
    match last
    case OffE => e.On?
    case On => e.MachCash?
    case MachCash(_) => e.MachSet?
    case MachSet => e.InsertCard? || e.OffE?
    case SessionDone => e.InsertCard? || e.OffE?
    case InsertCard => e.InsertCardI?
    case InsertCardI => e.ReadCard? || e.BadCard?
    case ReadCard(_) => e.CardSet?
    case BadCard => e.EjectCard?
    case CardSet => e.ReadPin? || e.CancelSession?
    case ReadPin(_) => e.PinSet?
    case PinSet => (e.Choose? && 1 <= e.menu <= 4) || e.CancelSession?
    case AnotherTrans => (e.Choose? && 1 <= e.menu <= 4) || e.CancelSession?
    case Choose(_) => e.ChooseI?
    case HoldingCard => e.SessionDone?
    case EndTrans => e.EjectCard?
    case CancelSession => e.EjectCard?
    case EjectCard => e.SessionDone?
    case _ => false
  }

  /** What can follow while the request is put together. */
  predicate FollowsAsking(c: Log, e: Event) {
    match c.last
    case ChooseI => (if c.menu == TRANSFER then e.FromE? else e.AcctE?) || e.CancelTransaction?
    case SameAcctE => e.FromE? || e.CancelTransaction?
    case AcctE(_) => if c.menu == INQUIRY then e.CardGetE? else e.AmountE? || e.CancelTransaction?
    case FromE(_) => e.ToE? || e.CancelTransaction?
    case ToE(_) => if c.from == c.to then e.SameAcctE? else e.AmountE? || e.CancelTransaction?
    case AmountE(_) => e.AmountSet?
    case AmountSet => e.CardGetE?
    case CardGetE => e.PinGetE?
    case _ => c.last.PinGetE? && e == BankSend(Entered(c))
  }

  /** What can follow from banksend until the PIN is settled. */
  predicate FollowsProving(c: Log, e: Event) {
    match c.last
    case BankSend(_) => c.answer.Some? && e == BankStatus(c.answer.value)
    case BankStatus(_) => if c.got.pinStatus == 0 then e.InvalidPin? else AfterPin(c, e)
    case InvalidPin => if c.wrong >= 3 then e.RollbackE? else e.NewPin?
    case NewPin(_) => e.NewPinSet?
    case _ => c.last.NewPinSet? && if c.pin == c.got.pin then AfterPin(c, e) else e.InvalidPin?
  }

  /** What can follow once the request is approved. */
  predicate FollowsGranting(c: Log, e: Event) {
    match c.last
    case ApprovedE =>
      if c.menu == WITHDRAW then e.MachGetE?
      else if c.menu == DEPOSIT then e.StartEnv?
      else e.CommitE?
    case MachGetE => e.AmountGetE?
    case AmountGetE => if c.cash >= c.amount then e.CommitE? else e.RollbackE?
    case StartEnv => e.InsertEnv? || e.CancelTransaction?
    case _ => c.last.InsertEnv? && e.CommitE?
  }

  /** What can follow once the request is committed, rolled back or given up. */
  predicate FollowsEnding(c: Log, e: Event) {
    match c.last
    case CommitE =>
      if c.menu == WITHDRAW then e.CashSet?
      else if c.menu == INQUIRY then e == DisplayE(c.got.balance)
      else e.ReceiptE?
    case CashSet => e == DispenseE(c.amount)
    case DispenseE(_) => e.ReceiptE?
    case DisplayE(_) => e.ReceiptE?
    case RollbackE =>
      if c.before.InvalidPin? then e.HoldingCard?
      else if c.before.AmountGetE? then e.ExceedsMch?
      else e.AgainE?
    case CancelTransaction => if c.before.StartEnv? then e.RollbackE? else e.AgainE?
    case ReceiptE => e.AgainE?
    case ExceedsMch => e.AgainE?
    case _ => c.last.AgainE? && if c.last.x == 1 then e.AnotherTrans? else e.EndTrans?
  }

  /** The part of a session that an event leads to. */
  datatype Part = Outside | Asking | Proving | Granting | Ending

  function PartAfter(e: Event): Part {
    match e
    case ChooseI => Asking
    case SameAcctE => Asking
    case AcctE(_) => Asking
    case FromE(_) => Asking
    case ToE(_) => Asking
    case AmountE(_) => Asking
    case AmountSet => Asking
    case CardGetE => Asking
    case PinGetE => Asking
    case BankSend(_) => Proving
    case BankStatus(_) => Proving
    case InvalidPin => Proving
    case NewPin(_) => Proving
    case NewPinSet => Proving
    case ApprovedE => Granting
    case MachGetE => Granting
    case AmountGetE => Granting
    case StartEnv => Granting
    case InsertEnv => Granting
    case CommitE => Ending
    case CashSet => Ending
    case DispenseE(_) => Ending
    case DisplayE(_) => Ending
    case RollbackE => Ending
    case CancelTransaction => Ending
    case ReceiptE => Ending
    case ExceedsMch => Ending
    case AgainE(_) => Ending
    case _ => Outside
  }

  /** The event e can follow the trace that c is the log of. */
  predicate Follows(c: Log, e: Event) {
    match PartAfter(c.last)
    case Outside => FollowsOuter(c.last, e)
    case Asking => FollowsAsking(c, e)
    case Proving => FollowsProving(c, e)
    case Granting => FollowsGranting(c, e)
    case Ending => FollowsEnding(c, e)
  }

  predicate Legal(table: Table, es: seq<Event>)
    decreases |es|
  {
    es == [] || (Legal(table, es[..|es| - 1]) && Follows(LogOf(table, es[..|es| - 1]), es[|es| - 1]))
  }

  // ---------- Where the processes are ----------

  function OverallAt(c: Log): Overall {
    match c.last
    case OffE => OFF
    case On => AwaitCash
    case MachCash(_) => SetCash(c.cash)
    case MachSet => IDLE
    case SessionDone => IDLE
    case InsertCard => ToSession
    case _ => SERVING
  }

  function SessionAt(c: Log): Session {
    match c.last
    case OffE => START
    case On => START
    case MachCash(_) => START
    case MachSet => START
    case SessionDone => START
    case InsertCard => START
    case InsertCardI => ReadingCard
    case ReadCard(_) => SetCard(c.card)
    case BadCard => EJECT
    case CardSet => ReadingPin
    case ReadPin(_) => SetPin(c.pin)
    case PinSet => Choosing
    case AnotherTrans => Choosing
    case Choose(_) => ToTransaction(c.menu)
    case EndTrans => EJECT
    case CancelSession => EJECT
    case HoldingCard => DONE
    case EjectCard => DONE
    case _ => TRANS
  }

  function OrderAt(c: Log): Order {
    if c.menu == TRANSFER then Order(TRANSFER, 1, c.from, c.to, c.amount)
    else Order(c.menu, c.account, 1, 1, if c.menu == INQUIRY then 0 else c.amount)
  }

  function PendingAt(c: Log, n: int): Pending {
    Pending(c.menu, c.got.approved, c.got.pin, c.got.balance, n)
  }

  function PinAt(c: Log): Transaction {
    if c.got.approved != 0 then SayApproved(c.menu, c.got.balance) else RollbackAgain
  }

  /** TRANSACTION while the request is put together. */
  function AskingAt(c: Log): Transaction {
    match c.last
    case ChooseI => if c.menu == TRANSFER then GetFrom else GetAcct(c.menu)
    case SameAcctE => GetFrom
    case AcctE(_) => if c.menu == INQUIRY then CardGet(OrderAt(c)) else GetAmount(c.menu, c.account)
    case FromE(_) => GetTo(c.from)
    case ToE(_) => if c.from == c.to then SameAcct else GetAmountFor(c.from, c.to)
    case AmountE(_) => SetAmount(OrderAt(c))
    case AmountSet => CardGet(OrderAt(c))
    case CardGetE => PinGet(OrderAt(c), c.card)
    case _ => Send(Entered(c))
  }

  /** TRANSACTION from banksend until the PIN is settled. */
  function ProvingAt(c: Log): Transaction {
    match c.last
    case BankSend(_) => Receive(c.menu)
    case BankStatus(_) => if c.got.pinStatus == 0 then SayInvalid(PendingAt(c, c.wrong + 1)) else PinAt(c)
    case InvalidPin => if c.wrong >= 3 then RollbackHold else ReadNewPin(PendingAt(c, c.wrong))
    case NewPin(_) => SetNewPin(PendingAt(c, c.wrong), c.pin)
    case _ => if c.pin == c.got.pin then PinAt(c) else SayInvalid(PendingAt(c, c.wrong + 1))
  }

  /** TRANSACTION once the request is approved. */
  function GrantingAt(c: Log): Transaction {
    match c.last
    case ApprovedE =>
      if c.menu == WITHDRAW then MachGet
      else if c.menu == DEPOSIT then StartEnvelope
      else if c.menu == TRANSFER then CommitReceipt
      else CommitDisplay(c.got.balance)
    case MachGetE => AmountGet(c.cash)
    case AmountGetE => if c.cash >= c.amount then CommitCash(c.cash, c.amount) else RollbackExceeds
    case StartEnv => InsertEnvelope
    case _ => CommitReceipt
  }

  /** TRANSACTION on its way out. */
  function EndingAt(c: Log): Transaction {
    match c.last
    case CommitE =>
      if c.menu == WITHDRAW then PutCash(c.cash - c.amount, c.amount)
      else if c.menu == INQUIRY then Display(c.got.balance)
      else Receipt
    case CashSet => Dispense(c.amount)
    case DispenseE(_) => Receipt
    case DisplayE(_) => Receipt
    case RollbackE => if c.before.InvalidPin? then HoldCard else if c.before.AmountGetE? then SayExceeds else Again
    case CancelTransaction => if c.before.StartEnv? then RollbackAgain else Again
    case AgainE(x) => if x == 1 then SayAnother else SayEnd
    case _ => Again
  }

  function TransactionAt(c: Log): Transaction {
    match PartAfter(c.last)
    case Outside => TStart
    case Asking => AskingAt(c)
    case Proving => ProvingAt(c)
    case Granting => GrantingAt(c)
    case Ending => EndingAt(c)
  }

  /** What the log says of VARIABLES. */
  predicate VarsAgree(c: Log, s: Session, t: Transaction, v: Vars) {
    && (!c.last.OffE? && !c.last.On? && !c.last.MachCash? ==> v.mach == Some(c.cash))
    && (s.ReadingPin? || s.SetPin? || s.Choosing? || s.ToTransaction? || s.TRANS? ==> v.card == Some(c.card))
    && (s.Choosing? || s.ToTransaction? || (s.TRANS? && !t.SetNewPin?) ==> v.pin == Some(c.pin))
    && ((t.CardGet? || t.PinGet? || t.Send? || AI.Unresolved(t)) && c.menu != INQUIRY ==> v.amount == Some(c.amount))
  }

  /** Which menu entry the events belong to. */
  predicate MenuAgrees(c: Log) {
    && (SessionAt(c).ToTransaction? || SessionAt(c).TRANS? ==> 1 <= c.menu <= 4)
    && (c.last.MachGetE? || c.last.AmountGetE? || c.last.CashSet? ==> c.menu == WITHDRAW)
    && (c.last.StartEnv? || c.last.InsertEnv? ==> c.menu == DEPOSIT)
    && (c.last.FromE? || c.last.ToE? || c.last.SameAcctE? ==> c.menu == TRANSFER)
    && (c.last.AcctE? ==> c.menu != TRANSFER)
    && (c.last.AmountE? || c.last.AmountSet? ==> c.menu != INQUIRY)
  }

  predicate PlacesAgree(c: Log, a: State) {
    a.o == OverallAt(c) && a.s == SessionAt(c) && a.t == TransactionAt(c)
  }

  predicate BankAgrees(c: Log, a: State) {
    a.books == c.books && a.reply == (if c.last.BankSend? then c.answer else None)
  }

  predicate Agree(c: Log, a: State) {
    PlacesAgree(c, a) && VarsAgree(c, a.s, a.t, a.v) && MenuAgrees(c) && BankAgrees(c, a)
  }

  /** The log is of a point inside a transaction. */
  predicate Inside(c: Log) {
    SessionAt(c).TRANS?
  }

  lemma PlacesSync(c: Log, a: State)
    requires PlacesAgree(c, a)
    ensures AI.SyncOk(a) && (a.t.TStart? <==> !Inside(c))
    ensures PartAfter(c.last).Outside? <==> !Inside(c)
  {
    hide OrderAt, PendingAt, Entered;
  }

  function SessionAfter(e: Event): Session {
    match e
    case EndTrans => EJECT
    case AnotherTrans => Choosing
    case HoldingCard => DONE
    case _ => TRANS
  }

  /** TRANSACTION can take the event e by itself. */
  predicate Takes(a: State, e: Event) {
    !AI.Outer(e) && TransactionStep(a.t, a.s, a.v, a.reply, e).Some?
  }

  lemma InsidePlaces(c: Log, a: State)
    requires PlacesAgree(c, a) && Inside(c)
    ensures a.o == SERVING && a.s == TRANS && !a.t.TStart?
  {
    PlacesSync(c, a);
    hide TransactionAt, OrderAt, PendingAt, Entered;
  }

  lemma InsideOnly(c: Log, a: State, e: Event)
    requires PlacesAgree(c, a) && Inside(c) && Next(a, e).Some?
    ensures Takes(a, e)
  {
    InsidePlaces(c, a);
    hide PlacesAgree, Inside, TransactionStep, VarsStep, LedgerStep, Answer;
  }

  lemma InsideCan(c: Log, a: State, e: Event)
    requires PlacesAgree(c, a) && Inside(c) && Takes(a, e)
    ensures Next(a, e).Some?
  {
    InsidePlaces(c, a);
    hide PlacesAgree, Inside, TransactionStep, VarsStep, LedgerStep, Answer;
  }

  /** Inside a transaction TRANSACTION moves as it does alone. */
  lemma InsideNext(c: Log, a: State, e: Event)
    requires PlacesAgree(c, a) && Inside(c) && Next(a, e).Some?
    ensures var b := Next(a, e).value;
            && b.o == SERVING && b.s == SessionAfter(e) && b.v == VarsStep(a, e)
            && b.t == TransactionStep(a.t, a.s, a.v, a.reply, e).value
  {
    InsidePlaces(c, a);
    hide PlacesAgree, Inside, TransactionStep, VarsStep, LedgerStep, Answer;
  }

  lemma BankStep(c: Log, a: State, e: Event)
    requires Agree(c, a) && Next(a, e).Some? && Follows(c, e)
    ensures BankAgrees(Logged(c, e), Next(a, e).value)
  {
    hide PlacesAgree, VarsAgree, MenuAgrees, OverallStep, SessionStep, TransactionStep, LedgerStep, VarsStep;
    hide AfterPin, Entered;
  }

  lemma MenuStep(c: Log, e: Event)
    requires MenuAgrees(c) && Follows(c, e)
    ensures MenuAgrees(Logged(c, e))
  {
    hide Answer, Entered;
  }

  lemma OuterOnly(c: Log, a: State, e: Event)
    requires a.o == OverallAt(c) && a.s == SessionAt(c) && a.t == TStart && !Inside(c) && Next(a, e).Some?
    ensures FollowsOuter(c.last, e)
  {
    hide VarsStep, LedgerStep, Answer;
    assert TransactionStep(TStart, a.s, a.v, a.reply, e).Some?;
    hide Next;
  }

  lemma OuterCan(c: Log, a: State, e: Event)
    requires a.o == OverallAt(c) && a.s == SessionAt(c) && a.t == TStart && !Inside(c) && FollowsOuter(c.last, e)
    ensures Next(a, e).Some?
  {
    hide VarsStep, LedgerStep, Answer;
  }

  lemma OuterStep(c: Log, a: State, e: Event)
    requires PlacesAgree(c, a) && VarsAgree(c, a.s, a.t, a.v) && MenuAgrees(c)
    requires Next(a, e).Some? && Follows(c, e) && !Inside(c)
    ensures PlacesAgree(Logged(c, e), Next(a, e).value)
  {
    hide LedgerStep, Answer, VarsStep, AI.Unresolved;
  }

  lemma OuterVars(c: Log, a: State, e: Event)
    requires PlacesAgree(c, a) && VarsAgree(c, a.s, a.t, a.v)
    requires Next(a, e).Some? && Follows(c, e) && !Inside(c)
    ensures var b := Next(a, e).value; VarsAgree(Logged(c, e), b.s, b.t, b.v)
  {
    hide LedgerStep, Answer;
  }

  lemma AskingOnly(c: Log, a: State, e: Event)
    requires VarsAgree(c, TRANS, a.t, a.v) && MenuAgrees(c)
    requires PartAfter(c.last) == Asking && a.t == AskingAt(c)
    requires Takes(a, e)
    ensures FollowsAsking(c, e)
  {
  }

  lemma EntryCan(c: Log, a: State, e: Event)
    requires MenuAgrees(c) && PartAfter(c.last) == Asking && a.t == AskingAt(c)
    requires FollowsAsking(c, e) && !e.CardGetE? && !e.PinGetE? && !e.BankSend?
    ensures Takes(a, e)
  {
  }

  lemma SendCan(c: Log, a: State, e: Event)
    requires VarsAgree(c, TRANS, a.t, a.v) && PartAfter(c.last) == Asking && a.t == AskingAt(c)
    requires FollowsAsking(c, e) && (e.CardGetE? || e.PinGetE? || e.BankSend?)
    ensures Takes(a, e)
  {
  }

  lemma AskingCan(c: Log, a: State, e: Event)
    requires VarsAgree(c, TRANS, a.t, a.v) && MenuAgrees(c)
    requires PartAfter(c.last) == Asking && a.t == AskingAt(c) && FollowsAsking(c, e)
    ensures Takes(a, e)
  {
    hide VarsAgree, MenuAgrees, AskingAt, FollowsAsking, Takes;
    if e.CardGetE? || e.PinGetE? || e.BankSend? { SendCan(c, a, e); } else { EntryCan(c, a, e); }
  }

  lemma AskingStep(c: Log, a: State, e: Event)
    requires VarsAgree(c, TRANS, a.t, a.v) && MenuAgrees(c)
    requires PartAfter(c.last) == Asking && a.t == AskingAt(c) && Takes(a, e) && FollowsAsking(c, e)
    ensures TransactionStep(a.t, a.s, a.v, a.reply, e).value == TransactionAt(Logged(c, e))
  {
    hide GrantingAt;
    assert PartAfter(e) == Asking || e.BankSend? || e.CancelTransaction?;
  }

  lemma ProvingOnly(c: Log, a: State, e: Event)
    requires BankAgrees(c, a)
    requires PartAfter(c.last) == Proving && a.t == ProvingAt(c)
    requires Takes(a, e)
    ensures FollowsProving(c, e)
  {
  }

  lemma ProvingCan(c: Log, a: State, e: Event)
    requires BankAgrees(c, a)
    requires PartAfter(c.last) == Proving && a.t == ProvingAt(c)
    requires FollowsProving(c, e)
    ensures Takes(a, e)
  {
  }

  lemma ProvingStays(c: Log, a: State, e: Event)
    requires BankAgrees(c, a) && PartAfter(c.last) == Proving && a.t == ProvingAt(c)
    requires Takes(a, e) && FollowsProving(c, e) && PartAfter(e) == Proving
    ensures TransactionStep(a.t, a.s, a.v, a.reply, e).value == ProvingAt(Logged(c, e))
  {
  }

  lemma ProvingStep(c: Log, a: State, e: Event)
    requires MenuAgrees(c) && BankAgrees(c, a)
    requires PartAfter(c.last) == Proving && a.t == ProvingAt(c) && Takes(a, e) && FollowsProving(c, e)
    ensures TransactionStep(a.t, a.s, a.v, a.reply, e).value == TransactionAt(Logged(c, e))
  {
    hide AskingAt;
    if PartAfter(e) == Proving {
      ProvingStays(c, a, e);
      hide ProvingAt, TransactionStep;
    } else {
      assert e.ApprovedE? || e.RollbackE?;
    }
  }

  lemma GrantingOnly(c: Log, a: State, e: Event)
    requires VarsAgree(c, TRANS, a.t, a.v) && MenuAgrees(c)
    requires PartAfter(c.last) == Granting && a.t == GrantingAt(c)
    requires Takes(a, e)
    ensures FollowsGranting(c, e)
  {
  }

  lemma GrantingCan(c: Log, a: State, e: Event)
    requires VarsAgree(c, TRANS, a.t, a.v) && MenuAgrees(c)
    requires PartAfter(c.last) == Granting && a.t == GrantingAt(c)
    requires FollowsGranting(c, e)
    ensures Takes(a, e)
  {
  }

  lemma GrantingStep(c: Log, a: State, e: Event)
    requires VarsAgree(c, TRANS, a.t, a.v) && MenuAgrees(c)
    requires PartAfter(c.last) == Granting && a.t == GrantingAt(c) && Takes(a, e) && FollowsGranting(c, e)
    ensures TransactionStep(a.t, a.s, a.v, a.reply, e).value == TransactionAt(Logged(c, e))
  {
    hide AskingAt, ProvingAt;
    assert PartAfter(e) == Granting || PartAfter(e) == Ending;
  }

  lemma EndingOnly(c: Log, a: State, e: Event)
    requires PartAfter(c.last) == Ending && a.t == EndingAt(c)
    requires Takes(a, e)
    ensures FollowsEnding(c, e)
  {
    hide Specifics, Received, HandlePin, PinTried, Completing, RequestOf;
  }

  lemma EndingCan(c: Log, a: State, e: Event)
    requires PartAfter(c.last) == Ending && a.t == EndingAt(c)
    requires FollowsEnding(c, e)
    ensures Takes(a, e)
  {
  }

  lemma EndingStep(c: Log, a: State, e: Event)
    requires PartAfter(c.last) == Ending && a.t == EndingAt(c) && Takes(a, e) && FollowsEnding(c, e)
    ensures TransactionStep(a.t, a.s, a.v, a.reply, e).value == TransactionAt(Logged(c, e))
  {
    hide AskingAt, ProvingAt, GrantingAt;
    assert PartAfter(e) == Ending || PartAfter(e) == Outside;
  }

  lemma AskingVars(c: Log, a: State, e: Event)
    requires VarsAgree(c, TRANS, a.t, a.v) && PartAfter(c.last) == Asking && a.t == AskingAt(c)
    requires Takes(a, e) && FollowsAsking(c, e)
    ensures var t := TransactionStep(a.t, a.s, a.v, a.reply, e).value;
            VarsAgree(Logged(c, e), SessionAfter(e), t, VarsStep(a, e))
  {
    hide Received, HandlePin, PinTried, Completing, Answer;
  }

  lemma ProvingVars(c: Log, a: State, e: Event)
    requires VarsAgree(c, TRANS, a.t, a.v) && PartAfter(c.last) == Proving && a.t == ProvingAt(c)
    requires Takes(a, e) && FollowsProving(c, e)
    ensures var t := TransactionStep(a.t, a.s, a.v, a.reply, e).value;
            VarsAgree(Logged(c, e), SessionAfter(e), t, VarsStep(a, e))
  {
  }

  lemma GrantingVars(c: Log, a: State, e: Event)
    requires VarsAgree(c, TRANS, a.t, a.v) && PartAfter(c.last) == Granting && a.t == GrantingAt(c)
    requires Takes(a, e) && FollowsGranting(c, e)
    ensures var t := TransactionStep(a.t, a.s, a.v, a.reply, e).value;
            VarsAgree(Logged(c, e), SessionAfter(e), t, VarsStep(a, e))
  {
  }

  lemma EndingVars(c: Log, a: State, e: Event)
    requires VarsAgree(c, TRANS, a.t, a.v) && PartAfter(c.last) == Ending && a.t == EndingAt(c)
    requires Takes(a, e) && FollowsEnding(c, e)
    ensures var t := TransactionStep(a.t, a.s, a.v, a.reply, e).value;
            VarsAgree(Logged(c, e), SessionAfter(e), t, VarsStep(a, e))
  {
    hide Specifics, Received, HandlePin, PinTried, Completing, RequestOf, Answer;
  }

  // ---------- The traces of the machine ----------

  lemma TakenFollows(c: Log, a: State, e: Event)
    requires VarsAgree(c, TRANS, a.t, a.v) && MenuAgrees(c) && BankAgrees(c, a) && a.t == TransactionAt(c)
    requires !PartAfter(c.last).Outside? && Takes(a, e)
    ensures Follows(c, e)
  {
    hide FollowsOuter, FollowsAsking, FollowsProving, FollowsGranting, FollowsEnding, Takes, TransactionStep;
    hide VarsAgree, MenuAgrees, BankAgrees, PartAfter, AskingAt, ProvingAt, GrantingAt, EndingAt;
    match PartAfter(c.last) {
      case Outside =>
      case Asking => AskingOnly(c, a, e);
      case Proving => ProvingOnly(c, a, e);
      case Granting => GrantingOnly(c, a, e);
      case Ending => EndingOnly(c, a, e);
    }
  }

  lemma FollowsTaken(c: Log, a: State, e: Event)
    requires VarsAgree(c, TRANS, a.t, a.v) && MenuAgrees(c) && BankAgrees(c, a) && a.t == TransactionAt(c)
    requires !PartAfter(c.last).Outside? && Follows(c, e)
    ensures Takes(a, e)
  {
    hide FollowsOuter, FollowsAsking, FollowsProving, FollowsGranting, FollowsEnding, Takes, TransactionStep;
    hide VarsAgree, MenuAgrees, BankAgrees, PartAfter, AskingAt, ProvingAt, GrantingAt, EndingAt;
    match PartAfter(c.last) {
      case Outside =>
      case Asking => AskingCan(c, a, e);
      case Proving => ProvingCan(c, a, e);
      case Granting => GrantingCan(c, a, e);
      case Ending => EndingCan(c, a, e);
    }
  }

  lemma TakenMoves(c: Log, a: State, e: Event)
    requires VarsAgree(c, TRANS, a.t, a.v) && MenuAgrees(c) && BankAgrees(c, a) && a.t == TransactionAt(c)
    requires !PartAfter(c.last).Outside? && Takes(a, e) && Follows(c, e)
    ensures var t := TransactionStep(a.t, a.s, a.v, a.reply, e).value;
            t == TransactionAt(Logged(c, e)) && VarsAgree(Logged(c, e), SessionAfter(e), t, VarsStep(a, e))
  {
    hide FollowsOuter, FollowsAsking, FollowsProving, FollowsGranting, FollowsEnding, TransactionStep;
    hide VarsAgree, MenuAgrees, BankAgrees, PartAfter, AskingAt, ProvingAt, GrantingAt, EndingAt, Logged, VarsStep;
    match PartAfter(c.last) {
      case Outside =>
      case Asking => AskingStep(c, a, e); AskingVars(c, a, e);
      case Proving => ProvingStep(c, a, e); ProvingVars(c, a, e);
      case Granting => GrantingStep(c, a, e); GrantingVars(c, a, e);
      case Ending => EndingStep(c, a, e); EndingVars(c, a, e);
    }
  }

  /** An event is possible exactly when it can follow the trace. */
  lemma FollowsIff(c: Log, a: State, e: Event)
    requires Agree(c, a)
    ensures Next(a, e).Some? <==> Follows(c, e)
  {
    PlacesSync(c, a);
    hide VarsAgree, MenuAgrees, BankAgrees, AI.SyncOk, TransactionAt, Next, FollowsOuter, FollowsAsking, FollowsProving;
    hide FollowsGranting, FollowsEnding, Takes;
    if !Inside(c) {
      if Next(a, e).Some? { OuterOnly(c, a, e); }
      if FollowsOuter(c.last, e) { OuterCan(c, a, e); }
    } else {
      InsidePlaces(c, a);
      if Next(a, e).Some? { InsideOnly(c, a, e); TakenFollows(c, a, e); }
      if Follows(c, e) { FollowsTaken(c, a, e); InsideCan(c, a, e); }
    }
  }

  lemma SessionMoves(c: Log, e: Event)
    requires Inside(c) && Follows(c, e)
    ensures OverallAt(Logged(c, e)) == SERVING && SessionAt(Logged(c, e)) == SessionAfter(e)
  {
  }

  lemma StepAgrees(c: Log, a: State, e: Event)
    requires Agree(c, a) && Next(a, e).Some? && Follows(c, e)
    ensures Agree(Logged(c, e), Next(a, e).value)
  {
    BankStep(c, a, e);
    MenuStep(c, e);
    PlacesSync(c, a);
    hide VarsAgree, MenuAgrees, BankAgrees, AI.SyncOk, TransactionAt, TransactionStep;
    hide Next, Follows, Takes, Logged, VarsStep;
    if !Inside(c) {
      OuterStep(c, a, e);
      OuterVars(c, a, e);
    } else {
      InsidePlaces(c, a);
      InsideOnly(c, a, e);
      InsideNext(c, a, e);
      SessionMoves(c, e);
      TakenMoves(c, a, e);
    }
  }

  lemma {:induction false} RunAgrees(table: Table, es: seq<Event>)
    ensures Run(Init(table), es).Some? <==> Legal(table, es)
    ensures Legal(table, es) ==> Agree(LogOf(table, es), Run(Init(table), es).value)
    decreases |es|
  {
    hide Agree, Next, Logged, Follows;
    if es != [] {
      var front, e := es[..|es| - 1], es[|es| - 1];
      assert es == front + [e];
      AT.RunSplit(Init(table), front, e);
      RunAgrees(table, front);
      if Legal(table, front) {
        var c, a := LogOf(table, front), Run(Init(table), front).value;
        FollowsIff(c, a, e);
        if Follows(c, e) { StepAgrees(c, a, e); }
      }
    } else {
      FreshAgrees(table);
    }
  }

  lemma FreshAgrees(table: Table)
    ensures Agree(Fresh(table), Init(table))
  {
  }

  /**
   The traces of the machine with its bank are the sequences in which every event can follow what was
   entered and what happened last.
   */
  lemma TracesAreLegal(table: Table, es: seq<Event>)
    ensures Run(Init(table), es).Some? <==> Legal(table, es)
  {
    RunAgrees(table, es);
  }

  // ---------- What that means for the client ----------

  /** e and f are entries of the same kind. */
  predicate SameKind(e: Event, f: Event) {
    match e
    case Choose(_) => f.Choose?
    case ReadCard(_) => f.ReadCard?
    case ReadPin(_) => f.ReadPin? || f.NewPin?
    case NewPin(_) => f.ReadPin? || f.NewPin?
    case AcctE(_) => f.AcctE?
    case FromE(_) => f.FromE?
    case ToE(_) => f.ToE?
    case AmountE(_) => f.AmountE?
    case BankStatus(_) => f.BankStatus?
    case _ => false
  }

  /** The log holds the entry e. */
  predicate Holds(c: Log, e: Event) {
    match e
    case Choose(menu) => c.menu == menu
    case ReadCard(card) => c.card == card
    case ReadPin(p) => c.pin == p
    case NewPin(p) => c.pin == p
    case AcctE(account) => c.account == account
    case FromE(account) => c.from == account
    case ToE(account) => c.to == account
    case AmountE(x) => c.amount == x
    case BankStatus(r) => c.got == r
    case _ => true
  }

  /** The log holds the last entry of each kind. */
  lemma {:induction false} LogHoldsLast(table: Table, u: seq<Event>, e: Event, w: seq<Event>)
    requires forall k :: 0 <= k < |w| ==> !SameKind(e, w[k])
    ensures Holds(LogOf(table, u + [e] + w), e)
    decreases |w|
  {
    var es := u + [e] + w;
    if w != [] {
      var front, f := w[..|w| - 1], w[|w| - 1];
      assert es[..|es| - 1] == u + [e] + front;
      LogHoldsLast(table, u, e, front);
      KindStays(LogOf(table, u + [e] + front), e, f);
    } else {
      assert es[|es| - 1] == e;
    }
  }

  lemma KindStays(c: Log, e: Event, f: Event)
    requires Holds(c, e) && !SameKind(e, f)
    ensures Holds(Logged(c, f), e)
  {
    hide Answer;
  }

  /** Which events come directly before one that the client or the bank notices. */
  lemma ComesFrom(c: Log, e: Event)
    requires Follows(c, e)
    ensures e.BankSend? ==> e.q == Entered(c)
    ensures e.DispenseE? ==> c.last.CashSet? && e.x == c.amount
    ensures e.SessionDone? ==> c.last.EjectCard? || c.last.HoldingCard?
    ensures e.CommitE? ==> c.last.ApprovedE? || c.last.AmountGetE? || c.last.InsertEnv?
    ensures e.CommitE? && c.last.ApprovedE? ==> c.menu != DEPOSIT
  {
    hide Entered;
  }

  /** What is known of the entries before the last one. */
  predicate PastAgrees(c: Log) {
    && (c.last.CashSet? ==> c.before.CommitE?)
    && (c.last.BankStatus? ==> c.wrong == 0)
    && (c.last.NewPin? || c.last.NewPinSet? ==> c.wrong <= 2)
    && (c.last.InvalidPin? || (c.last.RollbackE? && c.before.InvalidPin?) ==> c.wrong <= 3)
    && (c.last.RollbackE? && c.before.InvalidPin? ==> c.wrong >= 3)
    && (c.last.HoldingCard? ==> c.before.RollbackE? && c.wrong == 3)
  }

  lemma PastStep(c: Log, e: Event)
    requires PastAgrees(c) && Follows(c, e)
    ensures PastAgrees(Logged(c, e))
  {
    hide Entered, Answer;
  }

  lemma {:induction false} LegalPast(table: Table, es: seq<Event>)
    requires Legal(table, es)
    ensures PastAgrees(LogOf(table, es))
    decreases |es|
  {
    hide PastAgrees, Follows, Logged;
    if es != [] {
      LegalPast(table, es[..|es| - 1]);
      PastStep(LogOf(table, es[..|es| - 1]), es[|es| - 1]);
    } else {
      FreshPast(table);
    }
  }

  lemma FreshPast(table: Table)
    ensures PastAgrees(Fresh(table))
  {
  }

  lemma LastFollows(table: Table, es: seq<Event>, e: Event)
    requires Run(Init(table), es + [e]).Some?
    ensures Follows(LogOf(table, es), e) && MenuAgrees(LogOf(table, es)) && PastAgrees(LogOf(table, es))
  {
    RunAgrees(table, es + [e]);
    assert (es + [e])[..|es|] == es;
    RunAgrees(table, es);
    LegalPast(table, es);
  }

  /**
   The machine sends to the bank exactly what was entered: the menu entry chosen last, the card and
   the PIN read last, and the account, or for a transfer the two accounts, and the amount given last.
   */
  lemma RequestIsAsEntered(table: Table, es: seq<Event>, q: Request)
    requires Run(Init(table), es + [BankSend(q)]).Some?
    ensures q == Entered(LogOf(table, es))
  {
    LastFollows(table, es, BankSend(q));
    ComesFrom(LogOf(table, es), BankSend(q));
    hide *;
  }

  /** Cash is given for a withdrawal only, after its commit, and it is the amount that was entered last. */
  lemma DispensesWhatWasAsked(table: Table, es: seq<Event>, x: int)
    requires Run(Init(table), es + [DispenseE(x)]).Some?
    ensures var c := LogOf(table, es);
            c.menu == WITHDRAW && x == c.amount && c.last == CashSet && c.before == CommitE
  {
    LastFollows(table, es, DispenseE(x));
    ComesFrom(LogOf(table, es), DispenseE(x));
    hide LogOf, Follows, Run;
  }

  /** A deposit is committed directly after its envelope is put in. */
  lemma DepositTakesEnvelope(table: Table, es: seq<Event>)
    requires Run(Init(table), es + [CommitE]).Some? && LogOf(table, es).menu == DEPOSIT
    ensures LogOf(table, es).last == InsertEnv
  {
    LastFollows(table, es, CommitE);
    ComesFrom(LogOf(table, es), CommitE);
    hide LogOf, Follows, Run, PastAgrees;
  }

  /** A session ends with the card ejected, or kept after the third wrong PIN. */
  lemma SessionEndsWithCard(table: Table, es: seq<Event>)
    requires Run(Init(table), es + [SessionDone]).Some?
    ensures var c := LogOf(table, es);
            c.last == EjectCard || (c.last == HoldingCard && c.before == RollbackE && c.wrong == 3)
  {
    LastFollows(table, es, SessionDone);
    ComesFrom(LogOf(table, es), SessionDone);
    hide LogOf, Follows, Run;
  }
}
