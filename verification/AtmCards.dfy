/** Cards that the bank has, and cards that it does not have: when the machine comes to a stop. */
module AtmCards {
  import opened Wrappers
  import opened Bank
  import opened Atm
  import opened AtmInvariant
  import opened AtmTheorems

  ghost predicate ReachableFrom(table: Table, a: State) {
    exists es: seq<Event> :: Run(Init(table), es) == Some(a)
  }

  lemma FromIsReachable(table: Table, a: State)
    requires ReachableFrom(table, a)
    ensures Reachable(a)
  {
  }

  lemma Take(table: Table, a: State, e: Event) returns (b: State)
    requires ReachableFrom(table, a) && Next(a, e).Some?
    ensures ReachableFrom(table, b) && Next(a, e) == Some(b)
  {
    b := Next(a, e).value;
    var es :| Run(Init(table), es) == Some(a);
    hide Next;
    RunSplit(Init(table), es, e);
  }

  /** The machine has been switched on, and a client's card has been put in. */
  lemma SwitchOn(table: Table) returns (a: State)
    ensures ReachableFrom(table, a) && a.s == ReadingCard && a.t == TStart && a.o == SERVING
    ensures a.v == Vars(None, None, Some(0), None) && a.books == Books(table, table)
  {
    a := Init(table);
    assert Run(Init(table), []) == Some(a);
    hide ReachableFrom, Run;
    a := Take(table, a, On);
    a := Take(table, a, MachCash(0));
    a := Take(table, a, MachSet);
    a := Take(table, a, InsertCard);
    a := Take(table, a, InsertCardI);
  }

  /** The card has been read, and the client is about to choose. */
  lemma GiveCard(table: Table, c: int) returns (a: State)
    ensures ReachableFrom(table, a) && a.s == Choosing && a.t == TStart && a.o == SERVING
    ensures a.v == Vars(None, Some(c), Some(0), Some(1)) && a.books == Books(table, table)
  {
    a := SwitchOn(table);
    hide ReachableFrom, Run;
    a := Take(table, a, ReadCard(c));
    a := Take(table, a, CardSet);
    a := Take(table, a, ReadPin(1));
    a := Take(table, a, PinSet);
  }

  /** The client has chosen to ask for a balance. */
  lemma ChooseBalance(table: Table, c: int) returns (a: State)
    ensures ReachableFrom(table, a) && a.t == GetAcct(INQUIRY) && a.s == TRANS && a.o == SERVING
    ensures a.v == Vars(None, Some(c), Some(0), Some(1)) && a.books == Books(table, table)
  {
    a := GiveCard(table, c);
    hide ReachableFrom;
    a := Take(table, a, Choose(INQUIRY));
    a := Take(table, a, ChooseI);
  }

  /** The request for the balance is ready. */
  lemma AskBalance(table: Table, c: int) returns (a: State)
    ensures ReachableFrom(table, a) && a.t == Send(Request(INQUIRY, c, 1, 1, 1, 1, 0)) && a.s == TRANS && a.o == SERVING
    ensures a.books == Books(table, table)
  {
    a := ChooseBalance(table, c);
    hide ReachableFrom, LedgerStep;
    a := Take(table, a, AcctE(1));
    a := Take(table, a, CardGetE);
    a := Take(table, a, PinGetE);
  }

  /** Every card that the bank does not have can bring the machine to a stop, by asking for a balance. */
  lemma UnknownCardStops(table: Table, c: int) returns (a: State)
    requires c !in table
    ensures ReachableFrom(table, a) && a.t.Receive? && a.last.card == c && a.books == Books(table, table)
    ensures forall e :: Next(a, e).None?
  {
    a := AskBalance(table, c);
    hide ReachableFrom;
    a := Take(table, a, BankSend(a.t.q));
    FromIsReachable(table, a);
    hide Next;
    DeadlockIffUnknownCard(a);
  }

  /** The cards that SESSION and the variable hold have rows. */
  predicate SessionCards(a: State) {
    && (a.s.SetCard? ==> a.s.c in a.books.committed)
    && (a.v.card.Some? ==> a.v.card.value in a.books.committed)
  }

  /** The cards that TRANSACTION holds have rows. */
  predicate TransactionCards(a: State) {
    && (a.t.PinGet? ==> a.t.c in a.books.committed)
    && (a.t.Send? ==> a.t.q.card in a.books.committed)
  }

  predicate CardsKnown(a: State) {
    SessionCards(a) && TransactionCards(a)
  }

  /** The card that is read, if one is, has a row in the bank's table. */
  predicate CardRead(a: State, e: Event) {
    e.ReadCard? ==> e.c in a.books.committed
  }

  lemma BooksChange(a: State, e: Event)
    requires BooksOk(a) && Next(a, e).Some?
    ensures Next(a, e).value.books.committed == if e.CommitE? then a.books.working else a.books.committed
    ensures a.books.working.Keys == a.books.committed.Keys
  {
    hide OverallStep, SessionStep, TransactionStep, VarsStep, LedgerStep, Written, ReplyTo;
  }

  lemma StepKeepsSessionCards(a: State, b: State, e: Event)
    requires SessionCards(a) && CardRead(a, e) && Next(a, e) == Some(b)
             && b.books.committed.Keys == a.books.committed.Keys
    ensures SessionCards(b)
  {
    hide OverallStep, TransactionStep, LedgerStep, Answer;
  }

  lemma StepKeepsTransactionCards(a: State, b: State, e: Event)
    requires CardsKnown(a) && Next(a, e) == Some(b) && b.books.committed.Keys == a.books.committed.Keys
    ensures TransactionCards(b)
  {
    hide OverallStep, SessionStep, VarsStep, LedgerStep, Answer;
  }

  lemma NextKeepsCards(a: State, e: Event)
    requires CardsKnown(a) && BooksOk(a) && CardRead(a, e) && Next(a, e).Some?
    ensures CardsKnown(Next(a, e).value)
  {
    BooksChange(a, e);
    hide BooksOk, SessionCards, TransactionCards, CardRead, Next;
    StepKeepsSessionCards(a, Next(a, e).value, e);
    StepKeepsTransactionCards(a, Next(a, e).value, e);
  }

  /** The request that waits for its answer names a card that the bank has. */
  predicate LastKnown(a: State) {
    a.t.Receive? ==> a.last.card in a.books.committed
  }

  lemma NextKeepsLast(a: State, e: Event)
    requires BooksOk(a) && CardsKnown(a) && LastKnown(a) && Next(a, e).Some?
    ensures LastKnown(Next(a, e).value)
  {
    EventResolves(a, e);
    BooksChange(a, e);
    hide OverallStep, SessionStep, VarsStep, LedgerStep, Answer, BooksOk;
  }

  /** Every card that the run reads has a row in the table. */
  predicate ReadsKnownCards(table: Table, es: seq<Event>) {
    forall n :: 0 <= n < |es| && es[n].ReadCard? ==> es[n].c in table
  }

  lemma {:induction false} RunKeepsCards(table: Table, a: State, es: seq<Event>)
    requires Inv(a) && CardsKnown(a) && LastKnown(a) && a.books.committed.Keys == table.Keys
    requires ReadsKnownCards(table, es) && Run(a, es).Some?
    ensures LastKnown(Run(a, es).value)
    decreases |es|
  {
    if es != [] {
      var e := es[0];
      assert CardRead(a, e) && BooksOk(a);
      hide Inv, BooksOk, CardsKnown, LastKnown, CardRead, Next;
      NextKeeps(a, e);
      NextKeepsCards(a, e);
      NextKeepsLast(a, e);
      KeysStay(a, e);
      RunKeepsCards(table, Next(a, e).value, es[1..]);
    }
  }

  lemma KeysStay(a: State, e: Event)
    requires BooksOk(a) && Next(a, e).Some?
    ensures Next(a, e).value.books.committed.Keys == a.books.committed.Keys
  {
    BooksChange(a, e);
    hide Next;
  }

  /** On a run that reads only cards that the bank has, some event is always possible. */
  lemma KnownCardsNeverStop(table: Table, es: seq<Event>)
    requires ReadsKnownCards(table, es) && Run(Init(table), es).Some?
    ensures exists e :: Next(Run(Init(table), es).value, e).Some?
  {
    var a := Run(Init(table), es).value;
    InitOk(table);
    RunKeepsCards(table, Init(table), es);
    assert Reachable(a);
    hide Next, Run;
    DeadlockIffUnknownCard(a);
  }
}
