/**
 Conservation of money over any number of sessions: the committed total on every run, and all
 the equations on runs whose inputs are proper: known cards, accounts 1 and 2, amounts that are
 not negative, and deposits to checking only.
 */
module AtmMoney {
  import opened Wrappers
  import opened Bank
  import opened Atm
  import opened AtmInvariant
  import opened AtmCards

  /** The inputs for which money is conserved; other events are always proper. */
  predicate Proper(a: State, e: Event) {
    match e
    case MachCash(x) => x >= 0
    case ReadCard(c) => c in a.books.committed
    case AcctE(n) => n == 1 || (n == 2 && !(a.t.GetAcct? && a.t.m == DEPOSIT))
    case AmountE(x) => x >= 0
    case FromE(n) => n == 1 || n == 2
    case ToE(n) => n == 1 || n == 2
    case _ => true
  }

  predicate ProperRun(a: State, es: seq<Event>)
    decreases |es|
  {
    es == [] || (Proper(a, es[0]) && (Next(a, es[0]).Some? ==> ProperRun(Next(a, es[0]).value, es[1..])))
  }

  /** The request is one that the machine's prompts can produce from proper inputs. */
  predicate Fair(q: Request) {
    Sensible(q) && (q.transaction == DEPOSIT ==> q.account == 1)
  }

  predicate FairOrder(d: Order) {
    Fair(RequestOf(d, 0, 0))
  }

  predicate FairSoFar(t: Transaction) {
    match t
    case GetAmount(m, n) => (m == WITHDRAW || m == DEPOSIT) && (n == 1 || (n == 2 && m != DEPOSIT))
    case GetTo(f) => f == 1 || f == 2
    case GetAmountFor(f, g) => (f == 1 || f == 2) && (g == 1 || g == 2) && f != g
    case SetAmount(d) => FairOrder(d)
    case CardGet(d) => FairOrder(d)
    case PinGet(d, _) => FairOrder(d)
    case Send(q) => Fair(q)
    case _ => true
  }

  predicate AllSolvent(t: Table) {
    forall c :: c in t ==> Solvent(t[c])
  }

  /** Cash that has left the books and not yet the machine's counter, or the counter and not yet the slot. */
  function Owed(t: Transaction): int {
    match t
    case PutCash(_, x) => x
    case Dispense(x) => x
    case _ => 0
  }

  function InHand(t: Transaction): int {
    if t.Dispense? then t.amount else 0
  }

  predicate CashOk(a: State) {
    && (a.o.SetCash? ==> a.o.cash >= 0)
    && (a.o.IDLE? || a.o.ToSession? || a.o.SERVING? ==>
          && a.v.mach.Some? && a.v.mach.value >= 0
          && a.v.mach.value + a.l.out + InHand(a.t) == a.l.loaded)
    && (a.t.PutCash? ==> a.v.mach == Some(a.t.cash + a.t.amount) && a.t.cash >= 0)
  }

  predicate FairOk(a: State) {
    FairSoFar(a.t) && (Unresolved(a.t) ==> Fair(a.last))
  }

  /** The committed balances account for every amount dispensed and deposited, those to savings twice. */
  ghost predicate TotalOk(a: State, start: int) {
    Total(a.books.committed) == start - a.l.dispensed - Owed(a.t) + a.l.deposits + a.l.toSavings
  }

  ghost predicate Money(a: State) {
    FairOk(a) && CardsKnown(a) && AllSolvent(a.books.committed) && CashOk(a) && a.l.toSavings == 0
  }

  lemma NextKeepsFair(a: State, e: Event)
    requires FairOk(a) && OrderOk(a.t, a.v) && Proper(a, e) && Next(a, e).Some?
    ensures FairOk(Next(a, e).value)
  {
    hide OverallStep, SessionStep, VarsStep, LedgerStep, Answer;
  }

  lemma NextKeepsSolvent(a: State, e: Event)
    requires BooksOk(a) && FairOk(a) && AllSolvent(a.books.committed) && Next(a, e).Some?
    ensures AllSolvent(a.books.working) && AllSolvent(Next(a, e).value.books.committed)
  {
    BooksChange(a, e);
    if Unresolved(a.t) && Known(a) {
      var r := a.books.committed[a.last.card];
      SensibleStaysSolvent(r, a.last);
    }
    hide Next, Written, Solvent;
  }

  lemma StartHoldsNoCash(a: State, e: Event)
    requires a.t.TStart? && Next(a, e).Some?
    ensures !e.CashSet? && !e.DispenseE?
    ensures InHand(Next(a, e).value.t) == 0 && !Next(a, e).value.t.PutCash?
  {
    hide OverallStep, SessionStep, VarsStep, LedgerStep, Answer;
  }

  lemma LoadingKeepsCash(a: State, e: Event)
    requires SyncOk(a) && CashOk(a) && a.t.TStart? && e.MachSet? && Next(a, e).Some?
    ensures CashOk(Next(a, e).value)
  {
    StartHoldsNoCash(a, e);
    hide Answer, SessionStep, TransactionStep, InHand;
  }

  lemma OuterKeepsCash(a: State, e: Event)
    requires SyncOk(a) && CashOk(a) && Proper(a, e) && a.t.TStart? && Next(a, e).Some?
    ensures CashOk(Next(a, e).value)
  {
    if e.MachSet? {
      hide SyncOk, CashOk, Next;
      LoadingKeepsCash(a, e);
    } else {
      StartHoldsNoCash(a, e);
      hide Answer, SessionStep, TransactionStep, InHand;
    }
  }

  lemma TransactionKeepsCash(a: State, e: Event)
    requires SyncOk(a) && CashOk(a) && FairOk(a) && RequestOk(a) && BooksOk(a) && !a.t.TStart? && Next(a, e).Some?
    ensures CashOk(Next(a, e).value)
  {
    TransactionIsAlone(a, e);
    hide Written, Reported, Answer, Approved, OverallStep, SessionStep;
  }

  lemma NextKeepsCash(a: State, e: Event)
    requires SyncOk(a) && CashOk(a) && FairOk(a) && RequestOk(a) && BooksOk(a) && Proper(a, e) && Next(a, e).Some?
    ensures CashOk(Next(a, e).value)
  {
    hide SyncOk, CashOk, FairOk, RequestOk, BooksOk, Proper, Next;
    if a.t.TStart? { OuterKeepsCash(a, e); } else { TransactionKeepsCash(a, e); }
  }

  /** A commit moves the committed total by what leaves the machine or enters it; what enters savings counts twice. */
  lemma CommitMovesTotal(a: State)
    requires BooksOk(a) && RequestOk(a) && AmountOk(a) && Next(a, CommitE).Some?
    ensures var b := Next(a, CommitE).value;
            Total(b.books.committed) + Owed(b.t) ==
            Total(a.books.committed) + (b.l.deposits - a.l.deposits) + (b.l.toSavings - a.l.toSavings)
    ensures Owed(a.t) == 0 && Next(a, CommitE).value.l.dispensed == a.l.dispensed
  {
    EventResolves(a, CommitE);
    BooksChange(a, CommitE);
    var r := a.books.committed[a.last.card];
    TotalUpdate(a.books.committed, a.last.card, Written(r, a.last));
    hide OverallStep, SessionStep, VarsStep, Answer, Total;
  }

  lemma NextKeepsTotal(a: State, e: Event, start: int)
    requires Inv(a) && TotalOk(a, start) && Next(a, e).Some?
    ensures TotalOk(Next(a, e).value, start)
  {
    if e.CommitE? {
      CommitMovesTotal(a);
    } else {
      BooksChange(a, e);
      OwedChanges(a, e);
    }
    hide Next, Owed, Total, Inv;
  }

  lemma {:induction false} RunKeepsTotal(a: State, es: seq<Event>, start: int)
    requires Inv(a) && TotalOk(a, start) && Run(a, es).Some?
    ensures TotalOk(Run(a, es).value, start)
    decreases |es|
  {
    hide Inv, TotalOk, Next;
    if es != [] {
      NextKeepsTotal(a, es[0], start);
      NextKeeps(a, es[0]);
      RunKeepsTotal(Next(a, es[0]).value, es[1..], start);
    }
  }

  /**
   On every run, whatever is put in: the committed total is the initial one, less everything
   dispensed and a withdrawal committed and not yet dispensed, plus the deposits, plus the deposits
   to savings once more; so money is conserved exactly when the deposits to savings add up to nothing.
   */
  lemma TotalOnEveryRun(table: Table, es: seq<Event>)
    requires Run(Init(table), es).Some?
    ensures var a := Run(Init(table), es).value;
            var due := Total(table) - a.l.dispensed - Owed(a.t) + a.l.deposits;
            && Total(a.books.committed) == due + a.l.toSavings
            && (Total(a.books.committed) == due <==> a.l.toSavings == 0)
  {
    InitOk(table);
    assert TotalOk(Init(table), Total(table)) by { hide Total; }
    hide Run, Total, Inv;
    RunKeepsTotal(Init(table), es, Total(table));
  }

  lemma FairDepositsToChecking(a: State, e: Event)
    requires FairOk(a) && a.l.toSavings == 0 && Next(a, e).Some?
    ensures Next(a, e).value.l.toSavings == 0
  {
    EventResolves(a, e);
    hide OverallStep, SessionStep, VarsStep, Answer;
  }

  lemma OwedChanges(a: State, e: Event)
    requires Next(a, e).Some? && !e.CommitE?
    ensures var b := Next(a, e).value;
            b.l.dispensed + Owed(b.t) == a.l.dispensed + Owed(a.t) && b.l.deposits == a.l.deposits
            && b.l.toSavings == a.l.toSavings
  {
    hide OverallStep, SessionStep, VarsStep, Answer;
  }

  lemma NextKeepsMoney(a: State, e: Event)
    requires Inv(a) && Money(a) && Proper(a, e) && Next(a, e).Some?
    ensures Money(Next(a, e).value)
  {
    hide Next, FairOk, CardsKnown, AllSolvent, CashOk, SyncOk, VarsOk, OrderOk, BooksOk, AmountOk, RequestOk;
    NextKeepsFair(a, e);
    NextKeepsCards(a, e);
    NextKeepsSolvent(a, e);
    NextKeepsCash(a, e);
    FairDepositsToChecking(a, e);
  }

  lemma {:induction false} RunKeepsMoney(a: State, es: seq<Event>)
    requires Inv(a) && Money(a) && ProperRun(a, es) && Run(a, es).Some?
    ensures Inv(Run(a, es).value) && Money(Run(a, es).value)
    decreases |es|
  {
    hide Inv, Money, Next, Proper;
    if es != [] {
      NextKeepsMoney(a, es[0]);
      NextKeeps(a, es[0]);
      RunKeepsMoney(Next(a, es[0]).value, es[1..]);
    }
  }

  /**
   On every proper run: no balance is negative in either copy; the machine's cash and what it has
   dispensed since `on` make up what was loaded, except for notes in the slot; and the committed
   total is the initial one less everything dispensed, less a withdrawal committed and not yet
   dispensed, plus the deposits to checking.
   */
  lemma MoneyIsConserved(table: Table, es: seq<Event>)
    requires AllSolvent(table) && ProperRun(Init(table), es) && Run(Init(table), es).Some?
    ensures var a := Run(Init(table), es).value;
            && AllSolvent(a.books.committed) && AllSolvent(a.books.working)
            && (a.o.IDLE? || a.o.ToSession? || a.o.SERVING? ==>
                  a.v.mach.Some? && a.v.mach.value >= 0 && a.v.mach.value + a.l.out + InHand(a.t) == a.l.loaded)
            && Total(a.books.committed) == Total(table) - a.l.dispensed - Owed(a.t) + a.l.deposits
  {
    InitOk(table);
    var a := Run(Init(table), es).value;
    TotalOnEveryRun(table, es);
    hide Run, ProperRun, Total;
    RunKeepsMoney(Init(table), es);
    assert AllSolvent(a.books.working) by { WorkingSolvent(a); }
    hide Inv, Total, AllSolvent;
  }

  lemma WorkingSolvent(a: State)
    requires BooksOk(a) && FairOk(a) && AllSolvent(a.books.committed)
    ensures AllSolvent(a.books.working)
  {
    if Unresolved(a.t) && Known(a) {
      var r := a.books.committed[a.last.card];
      SensibleStaysSolvent(r, a.last);
    }
    hide Written, Solvent;
  }

  /** Between sessions nothing is owed: the books and the cash agree exactly. */
  lemma MoneyAgreesBetweenSessions(table: Table, es: seq<Event>)
    requires AllSolvent(table) && ProperRun(Init(table), es) && Run(Init(table), es).Some?
    requires Run(Init(table), es).value.o.IDLE?
    ensures var a := Run(Init(table), es).value;
            && a.books.working == a.books.committed
            && a.v.mach == Some(a.l.loaded - a.l.out)
            && Total(a.books.committed) == Total(table) - a.l.dispensed + a.l.deposits
  {
    MoneyIsConserved(table, es);
    InitOk(table);
    hide Run, ProperRun, Total;
    RunKeepsMoney(Init(table), es);
  }
}
