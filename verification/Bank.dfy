/**
 The bank: a table of accounts with a working copy and a committed copy, and the loop that
 answers `process`, `commit` and `rollback` messages.
 */
module Bank {
  import opened Wrappers

  datatype Row = Row(pin: int, checking: int, savings: int)

  type Table = map<int, Row>

  datatype Request = Request(transaction: int, card: int, pin: int, account: int, from: int, to: int, amount: int)

  datatype Reply = Reply(approved: int, pinStatus: int, pin: int, balance: int)

  datatype Message = Process(q: Request) | Commit | Rollback | Other

  // ---------- What a request does to a row ----------

  const WITHDRAW := 1
  const TRANSFER := 2
  const DEPOSIT := 3
  const INQUIRY := 4

  /** The approval test; only the balance named by `account` is looked at. */
  predicate Approved(r: Row, q: Request) {
    !((q.transaction == WITHDRAW || q.transaction == TRANSFER)
      && ((q.account == 1 && q.amount > r.checking) || (q.account == 2 && q.amount > r.savings)))
  }

  /** The row written to the table; a deposit to savings writes the amount twice. */
  function Written(r: Row, q: Request): Row {
    if !Approved(r, q) then r
    else if q.transaction == WITHDRAW then
      if q.account == 1 then r.(checking := r.checking - q.amount) else r.(savings := r.savings - q.amount)
    else if q.transaction == TRANSFER then
      if q.from == 1 && q.to == 2 then r.(checking := r.checking - q.amount, savings := r.savings + q.amount)
      else if q.from == 2 && q.to == 1 then r.(checking := r.checking + q.amount, savings := r.savings - q.amount)
      else r
    else if q.transaction == DEPOSIT then
      if q.account == 1 then r.(checking := r.checking + q.amount) else r.(savings := r.savings + q.amount + q.amount)
    else r
  }

  /** The balance that the bank reports. */
  function Reported(r: Row, q: Request): int {
    if q.account == 1 then Written(r, q).checking
    else if q.transaction == DEPOSIT then r.savings + q.amount
    else Written(r, q).savings
  }

  function ReplyTo(r: Row, q: Request): Reply {
    Reply(if Approved(r, q) then 1 else 0, if q.pin == r.pin then 1 else 0, r.pin, Reported(r, q))
  }

  // ---------- The bank as a state machine ----------

  datatype Books = Books(working: Table, committed: Table)

  /** An unknown card changes nothing and gets no reply. */
  function Answer(b: Books, m: Message): (Books, Option<Reply>) {
    match m
    case Process(q) =>
      if q.card !in b.working then (b, None)
      else (b.(working := b.working[q.card := Written(b.working[q.card], q)]), Some(ReplyTo(b.working[q.card], q)))
    case Commit => (b.(committed := b.working), None)
    case Rollback => (b.(working := b.committed), None)
    case Other => (b, None)
  }

  function AnswerAll(b: Books, ms: seq<Message>): (Books, seq<Reply>) {
    if ms == [] then (b, []) else
    var (c, rs) := AnswerAll(b, ms[..|ms| - 1]);
    var (d, r) := Answer(c, ms[|ms| - 1]);
    (d, if r.Some? then rs + [r.value] else rs)
  }

  lemma AnswerAllOne(b: Books, m: Message)
    ensures var (c, r) := Answer(b, m);
            AnswerAll(b, [m]) == (c, if r.Some? then [r.value] else [])
  {
    hide Answer;
    var r := Answer(b, m).1;
    assert [m][..0] == [] && (r.Some? ==> AnswerAll(b, []).1 + [r.value] == [r.value]);
  }

  /** The loop works on its messages in parts, with all replies in order. */
  lemma {:induction false} AnswerAllInParts(b: Books, ms: seq<Message>, ns: seq<Message>)
    ensures var (c, rs) := AnswerAll(b, ms);
            var (d, ts) := AnswerAll(c, ns);
            AnswerAll(b, ms + ns) == (d, rs + ts)
    decreases |ns|
  {
    hide Answer;
    if ns == [] {
      assert ms + ns == ms && AnswerAll(b, ms).1 + [] == AnswerAll(b, ms).1;
    } else {
      var front, m := ns[..|ns| - 1], ns[|ns| - 1];
      assert (ms + ns)[..|ms + ns| - 1] == ms + front;
      AnswerAllInParts(b, ms, front);
      var (c, rs) := AnswerAll(b, ms);
      var (d, ts) := AnswerAll(c, front);
      var (e, r) := Answer(d, m);
      var us := if r.Some? then ts + [r.value] else ts;
      assert r.Some? ==> rs + us == rs + ts + [r.value];
    }
  }

  class Server {
    var working: Table     // what queries see before commit
    var committed: Table   // what survives a rollback

    constructor (table: Table)
      ensures State() == Books(table, table)
    {
      working, committed := table, table;
    }

    ghost function State(): Books
      reads this
    {
      Books(working, committed)
    }

    /** One `process` message: the approval test, the update, and the reply. */
    method HandleProcess(q: Request) returns (reply: Option<Reply>)
      modifies this
      ensures (State(), reply) == Answer(old(State()), Process(q))
    {
      if q.card !in working {
        return None;
      }
      var row := working[q.card];
      var pinStatus, approved := 1, 1;
      if q.pin != row.pin {
        pinStatus := 0;
      }
      if q.transaction == WITHDRAW || q.transaction == TRANSFER {
        if q.account == 1 && q.amount > row.checking {
          approved := 0;
        } else if q.account == 2 && q.amount > row.savings {
          approved := 0;
        }
      }
      var dbchecking, dbsavings, dbpin := row.checking, row.savings, row.pin;
      if approved != 0 {
        if q.transaction == WITHDRAW {
          if q.account == 1 {
            dbchecking := dbchecking - q.amount;
            working := working[q.card := working[q.card].(checking := dbchecking)];
          } else {
            dbsavings := dbsavings - q.amount;
            working := working[q.card := working[q.card].(savings := dbsavings)];
          }
        } else if q.transaction == TRANSFER {
          if q.from == 1 && q.to == 2 {
            dbchecking := dbchecking - q.amount;
            dbsavings := dbsavings + q.amount;
            working := working[q.card := working[q.card].(checking := dbchecking)];
            working := working[q.card := working[q.card].(savings := dbsavings)];
          } else if q.from == 2 && q.to == 1 {
            dbchecking := dbchecking + q.amount;
            dbsavings := dbsavings - q.amount;
            working := working[q.card := working[q.card].(checking := dbchecking)];
            working := working[q.card := working[q.card].(savings := dbsavings)];
          }
        } else if q.transaction == DEPOSIT {
          if q.account == 1 {
            dbchecking := dbchecking + q.amount;
            working := working[q.card := working[q.card].(checking := dbchecking)];
          } else {
            dbsavings := dbsavings + q.amount;
            working := working[q.card := working[q.card].(savings := dbsavings + q.amount)];
          }
        }
      }
      reply := Some(Reply(approved, pinStatus, dbpin, if q.account == 1 then dbchecking else dbsavings));
      assert working == old(working)[q.card := Written(row, q)];
    }

    /** The message loop, over the messages that arrive. */
    method Serve(ms: seq<Message>) returns (replies: seq<Reply>)
      modifies this
      ensures (State(), replies) == AnswerAll(old(State()), ms)
    {
      replies := [];
      for n := 0 to |ms|
        invariant (State(), replies) == AnswerAll(old(State()), ms[..n])
      {
        assert ms[..n + 1][..n] == ms[..n];
        match ms[n] {
          case Process(q) =>
            var reply := HandleProcess(q);
            if reply.Some? {
              replies := replies + [reply.value];
            }
          case Commit => committed := working;
          case Rollback => working := committed;
          case Other =>
        }
      }
      assert ms[..|ms|] == ms;
    }
  }

  // ---------- Money in the table ----------

  function Worth(r: Row): int {
    r.checking + r.savings
  }

  ghost function Total(t: Table): int {
    if exists k :: k in t then
      var k :| k in t;
      Worth(t[k]) + Total(t - {k})
    else 0
  }

  lemma {:induction false} TotalWithout(t: Table, c: int)
    requires c in t
    ensures Total(t) == Worth(t[c]) + Total(t - {c})
    decreases t
  {
    var k :| k in t && Total(t) == Worth(t[k]) + Total(t - {k});
    if k != c {
      TotalWithout(t - {k}, c);
      TotalWithout(t - {c}, k);
      assert (t - {k}) - {c} == (t - {c}) - {k};
    }
  }

  lemma TotalUpdate(t: Table, c: int, r: Row)
    requires c in t
    ensures Total(t[c := r]) == Total(t) - Worth(t[c]) + Worth(r)
  {
    TotalWithout(t, c);
    TotalWithout(t[c := r], c);
    assert t[c := r] - {c} == t - {c};
  }

  /** What a request is meant to add to the client's accounts. */
  function Intended(r: Row, q: Request): int {
    if !Approved(r, q) then 0
    else if q.transaction == WITHDRAW then -q.amount
    else if q.transaction == DEPOSIT then q.amount
    else 0
  }

  /** The table changes by the intended amount exactly when the request is not a deposit to savings. */
  lemma ProcessConservesIff(b: Books, q: Request)
    requires q.card in b.working
    ensures Total(Answer(b, Process(q)).0.working) == Total(b.working) + Intended(b.working[q.card], q)
            <==> !(q.transaction == DEPOSIT && q.account != 1 && q.amount != 0)
  {
    TotalUpdate(b.working, q.card, Written(b.working[q.card], q));
  }

  /** A deposit of five to savings adds ten. */
  lemma SavingsDepositCountsTwice()
    ensures Written(Row(1, 5, 5), Request(DEPOSIT, 1, 1, 2, 1, 1, 5)) == Row(1, 5, 15)
  {
  }

  predicate Solvent(r: Row) {
    r.checking >= 0 && r.savings >= 0
  }

  function Balance(r: Row, account: int): int {
    if account == 1 then r.checking else r.savings
  }

  /** A transfer that moves something: between the two accounts, one way or the other. */
  predicate Moves(q: Request) {
    q.transaction == TRANSFER && ((q.from == 1 && q.to == 2) || (q.from == 2 && q.to == 1))
  }

  /**
   The approval test looks at the wrong balance: the account is neither 1 nor 2, so that savings is
   used unchecked, or it is not the one that a transfer takes from.
   */
  predicate Overlooked(r: Row, q: Request) {
    && Approved(r, q)
    && (|| (q.transaction == WITHDRAW && q.account != 1 && q.account != 2 && q.amount > r.savings)
        || (Moves(q) && q.account != q.from && q.amount > Balance(r, q.from)))
  }

  /** A negative amount, which the test never refuses, takes from the account that should receive. */
  predicate Reversed(r: Row, q: Request) {
    || (Moves(q) && -q.amount > Balance(r, q.to))
    || (q.transaction == DEPOSIT && q.account == 1 && -q.amount > r.checking)
    || (q.transaction == DEPOSIT && q.account != 1 && -2 * q.amount > r.savings)
  }

  /**
   A request overdraws an account exactly when the approval test has overlooked it, or its amount is
   negative and too large.
   */
  lemma ProcessSolventIff(r: Row, q: Request)
    requires Solvent(r)
    ensures Solvent(Written(r, q)) <==> !(if q.amount >= 0 then Overlooked(r, q) else Reversed(r, q))
  {
  }

  /** What the machine's prompts name: accounts 1 and 2, no negative amount, and from as the account of a transfer. */
  predicate Sensible(q: Request) {
    && q.amount >= 0
    && (q.account == 1 || q.account == 2)
    && (q.transaction == TRANSFER ==> q.account == q.from && (q.from == 1 || q.from == 2))
    && (q.transaction == TRANSFER ==> (q.to == 1 || q.to == 2) && q.from != q.to)
  }

  /** The test overlooks nothing in what the machine can ask for. */
  lemma SensibleStaysSolvent(r: Row, q: Request)
    requires Solvent(r) && Sensible(q)
    ensures Solvent(Written(r, q))
  {
    ProcessSolventIff(r, q);
  }

  /** Any account but 1 and 2 is treated as savings and not checked, so every larger withdrawal overdraws it. */
  lemma UncheckedAccountOverdraws(r: Row, q: Request)
    requires q.transaction == WITHDRAW && q.account != 1 && q.account != 2 && q.amount > r.savings
    ensures Approved(r, q) && Written(r, q).savings < 0
  {
  }

  // ---------- What a request does and what the reply says, on the answers of the bank ----------

  /** The two names of accounts say the same account; every number but 1 is savings. */
  predicate SameAccount(a: int, b: int) {
    (a == 1) == (b == 1)
  }

  /** How much the account gains by an approved request. */
  function Gain(q: Request, account: int): int {
    if q.transaction == WITHDRAW then (if SameAccount(q.account, account) then -q.amount else 0)
    else if q.transaction == DEPOSIT then
      if !SameAccount(q.account, account) then 0 else if account == 1 then q.amount else 2 * q.amount
    else if Moves(q) then (if SameAccount(q.from, account) then -q.amount else q.amount)
    else 0
  }

  /**
   The reply to a request about a known card: it approves exactly the requests that are not a
   withdrawal or transfer of more than the balance of the account named, when that is 1 or 2; it says
   whether the PIN is right, and which it is; and it gives the balance that the account then has in
   the working copy exactly when the request is not a deposit to savings, in which case it gives the
   balance with the deposit once.
   */
  lemma ReplyMeans(b: Books, q: Request)
    requires q.card in b.working
    ensures var (c, answer) := Answer(b, Process(q)); var row := b.working[q.card];
            && answer.Some? && q.card in c.working
            && answer.value.approved in {0, 1} && answer.value.pinStatus in {0, 1}
            && (answer.value.approved == 0
                <==> (q.transaction == WITHDRAW || q.transaction == TRANSFER)
                     && (q.account == 1 || q.account == 2) && q.amount > Balance(row, q.account))
            && (answer.value.pinStatus == 1 <==> q.pin == row.pin)
            && answer.value.pin == row.pin
            && (answer.value.balance == Balance(c.working[q.card], q.account)
                <==> !(q.transaction == DEPOSIT && q.account != 1 && q.amount != 0))
            && (q.transaction == DEPOSIT && q.account != 1 ==> answer.value.balance == row.savings + q.amount)
  {
  }

  /**
   The effect of a request about a known card: if the reply approves it each account changes by its
   gain, and otherwise not at all.  PINs, other cards and the committed copy stay.
   */
  lemma RequestMeans(b: Books, q: Request, account: int)
    requires q.card in b.working
    ensures var (c, answer) := Answer(b, Process(q));
            && c.working.Keys == b.working.Keys && c.committed == b.committed
            && (forall card <- b.working :: card != q.card ==> c.working[card] == b.working[card])
            && c.working[q.card].pin == b.working[q.card].pin
            && answer.Some?
            && Balance(c.working[q.card], account)
               == Balance(b.working[q.card], account) + (if answer.value.approved == 1 then Gain(q, account) else 0)
  {
  }
}
