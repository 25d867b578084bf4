/** The dashboard's aggregates over the committed tables (internal/simulation/stats.go), and the sums that the bank
    keeps: money in all accounts, and volumes against the ledger. */
module Stats {
  import opened Common
  import opened Ledger
  import opened Bank
  import opened History
  import opened Protocol
  import opened Refinement

  // ------------------------------------------------------------------------------------------------- finite sums

  /** The sum of all values of m. */
  ghost function Sum(m: map<Id, int>): int {
    if m == map[] then 0
    else
      var k :| k in m;
      m[k] + Sum(m - {k})
  }

  lemma {:induction false} SumRemove(m: map<Id, int>, k: Id)
    requires k in m
    ensures Sum(m) == m[k] + Sum(m - {k})
    decreases |m|
  {
    var j :| j in m && Sum(m) == m[j] + Sum(m - {j});
    if j != k {
      SumRemove(m - {j}, k);
      SumRemove(m - {k}, j);
      assert m - {j} - {k} == m - {k} - {j};
    }
  }

  lemma SumUpdate(m: map<Id, int>, k: Id, v: int)
    ensures Sum(m[k := v]) == Sum(m) + v - if k in m then m[k] else 0
  {
    var m' := m[k := v];
    SumRemove(m', k);
    if k in m { SumRemove(m, k); }
    assert m' - {k} == m - {k};
    if k !in m { assert m - {k} == m; }
  }

  // ------------------------------------------------------------------------------------------------ conservation

  function Balances(db: Db): map<Id, int> { map a | a in db.accounts :: db.accounts[a].balance }

  /** All the money in the bank. */
  ghost function Money(db: Db): int { Sum(Balances(db)) }

  /** Deposits minus withdrawals since the bank was last emptied. */
  function PaidIn(h: seq<Commit>): int {
    if h == [] || Last(h).op.Truncate? then 0
    else PaidIn(Front(h)) + (if Last(h).op.Mutate? then Last(h).op.delta else 0)
  }

  lemma PostMovesMoney(db: Db, a: Id, delta: int, transfer: Option<Id>)
    requires CanPost(db, a, delta)
    ensures Money(Post(db, a, delta, transfer)) == Money(db) + delta
  {
    SumUpdate(Balances(db), a, db.accounts[a].balance + delta);
    assert Balances(Post(db, a, delta, transfer)) == Balances(db)[a := db.accounts[a].balance + delta];
  }

  lemma SameBalances(db: Db, db': Db)
    requires db'.accounts.Keys == db.accounts.Keys
    requires forall a :: a in db.accounts ==> db'.accounts[a].balance == db.accounts[a].balance
    ensures Money(db') == Money(db)
  {
    assert Balances(db') == Balances(db);
  }

  lemma Post2KeepsMoney(db: Db, a: Id, delta: int, b: Id, t: Id)
    requires a != b && CanPost(db, a, delta) && CanPost(db, b, -delta)
    ensures Money(Post2(db, a, delta, b, -delta, t)) == Money(db)
  {
    PostMovesMoney(db, a, delta, Some(t));
    PostMovesMoney(Post(db, a, delta, Some(t)), b, -delta, Some(t));
  }

  /** A deposit or withdrawal moves money by its amount, a reset takes it all, and nothing else moves any. */
  lemma ExecMovesMoney(db: Db, op: Op)
    requires DbInv(db) && Guard(db, op)
    ensures Money(Exec(db, op)) == if op.Mutate? then Money(db) + op.delta else if op.Truncate? then 0 else Money(db)
  {
    assert RowsOk(db) && (op.Open? ==> op.id !in db.accounts);
    hide DbInv, RowsOk, Booked;
    if op.Book? || op.Reverse? {
      TransferKeepsMoney(db, op);
      hide Exec;
    } else if op.Mutate? {
      PostMovesMoney(db, op.account, op.delta, None);
    } else if op.Open? {
      OpenKeepsMoney(db, op);
    } else if op.Truncate? {
      assert Balances(Exec(db, op)) == map[];
    } else {
      StatusKeepsMoney(db, op);
    }
  }

  lemma OpenKeepsMoney(db: Db, op: Op)
    requires RowsOk(db) && Guard(db, op) && op.Open? && op.id !in db.accounts
    ensures Money(Exec(db, op)) == Money(db)
  {
    SumUpdate(Balances(db), op.id, 0);
    assert Balances(Exec(db, op)) == Balances(db)[op.id := 0];
  }

  lemma StatusKeepsMoney(db: Db, op: Op)
    requires RowsOk(db) && Guard(db, op)
    requires op.Create? || op.Void? || op.Confirm? || op.MarkFailed? || op.SetStatus?
    ensures Money(Exec(db, op)) == Money(db)
  {
    hide Money, Booked, RowsOk;
    SameBalances(db, Exec(db, op));
  }

  lemma TransferKeepsMoney(db: Db, op: Op)
    requires DbInv(db) && Guard(db, op) && (op.Book? || op.Reverse?)
    ensures Money(Exec(db, op)) == Money(db)
  {
    assert RowOk(db, op.tid);
    hide Select, AccountsOk, EntriesOk, BookingsOk, KeysUnique, IdsIssued, RowsOk, Money, Post2, Post;
    var delta := if op.Book? then -op.amount else op.amount;
    Post2KeepsMoney(db, op.from, delta, op.to, op.tid);
    SameBalances(Post2(db, op.from, delta, op.to, -delta, op.tid), Exec(db, op));
  }

  lemma {:induction false} HistoryConservesMoney(h: seq<Commit>)
    requires Legal(h)
    ensures Money(Replay(h)) == PaidIn(h)
  {
    if h == [] {
      assert Balances(EMPTY_DB) == map[];
    } else {
      HistoryConservesMoney(Front(h));
      LegalHistoryKeepsDbInv(Front(h));
      ExecMovesMoney(Replay(Front(h)), Last(h).op);
    }
  }

  /** Conservation. At every moment of every run the balances add up to what was paid in, however many transfers,
      retries, settlements and reversals are under way. */
  lemma MoneyIsConserved(external: bool, es: seq<Event>)
    requires ValidRun(external, es)
    ensures var s := StateAfter(external, es); Money(s.db) == PaidIn(s.history)
  {
    EveryInterleavingRefinesTheAtomicBank(external, es);
    HistoryConservesMoney(StateAfter(external, es).history);
    hide StateAfter, ValidRun, Inv, Legal, Replay;
  }

  // ------------------------------------------------------------------------------------------------ the two queries

  /** Accounts whose balance is not their credits minus their debits. */
  function Divergent(db: Db): set<Id> { set a | a in db.accounts && db.accounts[a].balance != Net(Statement(db, a)) }

  function WithStatus(db: Db, status: TransferStatus): set<Id> {
    set t | t in db.transfers && db.transfers[t].status == status
  }

  /** What settlement still has to confirm: PENDING and booked. */
  function Backlog(db: Db): set<Id> { set t | t in WithStatus(db, Pending) && Booked(db, t) }

  /** sum(amount_cents) over some of the transfers. */
  function Amounts(db: Db, ts: set<Id>): map<Id, int> { map t | t in ts && t in db.transfers :: db.transfers[t].amount }

  ghost function Volume(db: Db, ts: set<Id>): int { Sum(Amounts(db, ts)) }

  function Debit(e: Entry, ts: set<Id>): int {
    if e.typ.Debit? && e.transfer.Some? && e.transfer.value in ts then e.amount else 0
  }

  /** What the ledger debited for some of the transfers. */
  function Debits(es: seq<Entry>, ts: set<Id>): int {
    if es == [] then 0 else Debits(es[..|es| - 1], ts) + Debit(es[|es| - 1], ts)
  }

  lemma DebitsAppend(es: seq<Entry>, e: Entry, ts: set<Id>)
    ensures Debits(es + [e], ts) == Debits(es, ts) + Debit(e, ts)
  {
    assert (es + [e])[..|es|] == es;
  }

  lemma {:induction false} DebitsSplit(es: seq<Entry>, ts: set<Id>, t: Id)
    requires t in ts
    ensures Debits(es, ts) == Debits(es, ts - {t}) + Debits(Select(es, OfTransfer(t)), {t})
  {
    if es != [] {
      var e, front := es[|es| - 1], es[..|es| - 1];
      DebitsSplit(front, ts, t);
      DebitsAppend(Select(front, OfTransfer(t)), e, {t});
      assert Debit(e, ts) == Debit(e, ts - {t}) + Debit(e, {t});
      hide Debit;
      if !Picks(OfTransfer(t), e) {
        NoDebitOf(e, t);
        assert Select(front, OfTransfer(t)) + [] == Select(front, OfTransfer(t));
      }
    }
  }

  lemma NoDebitOf(e: Entry, t: Id)
    requires !Picks(OfTransfer(t), e)
    ensures Debit(e, {t}) == 0
  {
  }

  lemma {:induction false} NoDebits(es: seq<Entry>)
    ensures Debits(es, {}) == 0
  {
    if es != [] { NoDebits(es[..|es| - 1]); }
  }

  /** The debit of a booked, unreversed transfer is its amount. */
  lemma DebitOfBooked(row: Transfer, es: seq<Entry>, t: Id)
    requires Legs(row, es) && |es| == 2 && es[0].transfer == Some(t) && es[1].transfer == Some(t)
    ensures Debits(es, {t}) == row.amount
  {
    assert es[..1] == [es[0]] && es[..1][..0] == [];
    assert Debits(es[..1], {t}) == row.amount;
  }

  lemma {:induction false} VolumeIsDebits(db: Db, ts: set<Id>)
    requires BookingsOk(db) && ts <= db.transfers.Keys && forall t :: t in ts ==> |EntriesFor(db, t)| == 2
    ensures Volume(db, ts) == Debits(db.entries, ts)
  {
    if ts == {} {
      NoDebits(db.entries);
      assert Amounts(db, {}) == map[];
    } else {
      var t :| t in ts;
      VolumeIsDebits(db, ts - {t});
      DebitsSplit(db.entries, ts, t);
      var es := EntriesFor(db, t);
      SelectedComesFromLog(db.entries, OfTransfer(t));
      assert es[0] in es && es[1] in es && BookingOk(db, t);
      DebitOfBooked(db.transfers[t], es, t);
      SumRemove(Amounts(db, ts), t);
      assert Amounts(db, ts) - {t} == Amounts(db, ts - {t});
    }
  }

  /** The dashboard at any moment of any run: no divergent account, every settled transfer booked, and the settled and
      pending volumes are what the ledger debited for those transfers. */
  lemma DashboardAgreesWithLedger(external: bool, es: seq<Event>)
    requires ValidRun(external, es)
    ensures var db := StateAfter(external, es).db;
            && Divergent(db) == {}
            && (forall t :: t in WithStatus(db, Settled) ==> Booked(db, t))
            && Volume(db, WithStatus(db, Settled)) == Debits(db.entries, WithStatus(db, Settled))
            && Volume(db, Backlog(db)) == Debits(db.entries, Backlog(db))
  {
    EveryInterleavingRefinesTheAtomicBank(external, es);
    var db := StateAfter(external, es).db;
    InvKnowsDb(StateAfter(external, es));
    hide StateAfter, ValidRun, Inv;
    NoneDivergent(db);
    SettledAndPending(db);
  }

  /** The dashboard misses nothing: whatever else is put in the place of the balance of an account that agrees with its
      entries, the account is divergent, and no other is because of that. */
  lemma TamperingShows(db: Db, a: Id, balance: int)
    requires a in db.accounts && AccountOk(db, a) && balance != db.accounts[a].balance
    ensures var tampered := db.(accounts := db.accounts[a := db.accounts[a].(balance := balance)]);
            Divergent(tampered) == Divergent(db) + {a}
  {
    var tampered := db.(accounts := db.accounts[a := db.accounts[a].(balance := balance)]);
    hide Select, Running, Net;
    forall b ensures b in Divergent(tampered) <==> b in Divergent(db) + {a} {
      assert Statement(tampered, b) == Statement(db, b);
    }
  }

  lemma NoneDivergent(db: Db)
    requires AccountsOk(db)
    ensures Divergent(db) == {}
  {
    forall a | a in db.accounts ensures a !in Divergent(db) {
      assert AccountOk(db, a);
    }
  }

  lemma SettledAndPending(db: Db)
    requires BookingsOk(db)
    ensures forall t :: t in WithStatus(db, Settled) ==> Booked(db, t)
    ensures Volume(db, WithStatus(db, Settled)) == Debits(db.entries, WithStatus(db, Settled))
    ensures Volume(db, Backlog(db)) == Debits(db.entries, Backlog(db))
  {
    hide Legs, Volume, Debits;
    forall t | t in WithStatus(db, Settled) + Backlog(db) ensures |EntriesFor(db, t)| == 2 {
      assert BookingOk(db, t);
      LegsAreFew(db.transfers[t], EntriesFor(db, t));
    }
    VolumeIsDebits(db, WithStatus(db, Settled));
    VolumeIsDebits(db, Backlog(db));
  }

  lemma LegsAreFew(row: Transfer, es: seq<Entry>)
    requires Legs(row, es)
    ensures |es| == 0 || |es| == 2 || |es| == 4
  {
  }

  // ------------------------------------------------------------------------------------------------------ the ledger

  /** In every reachable state, the version of an account counts its entries, its k-th entry in commit order records the
      signed sum of the first k, and its balance is the last of these sums and fits 63 bits. */
  lemma LedgerTellsBalances(external: bool, es: seq<Event>, a: Id)
    requires ValidRun(external, es) && a in StateAfter(external, es).db.accounts
    ensures var db := StateAfter(external, es).db;
            var log := Statement(db, a);
            && db.accounts[a].version == |log|
            && (forall k :: 0 <= k < |log| ==> log[k].balanceAfter == Net(log[..k + 1]))
            && (log != [] ==> db.accounts[a].balance == log[|log| - 1].balanceAfter)
            && db.accounts[a].balance == Net(log) && 0 <= db.accounts[a].balance <= MAX_INT64
  {
    EveryInterleavingRefinesTheAtomicBank(external, es);
    var db := StateAfter(external, es).db;
    InvKnowsDb(StateAfter(external, es));
    assert AccountOk(db, a);
    hide StateAfter, ValidRun, Inv, Select;
    assert Statement(db, a)[..|Statement(db, a)|] == Statement(db, a);
  }

  /** In every reachable state a transfer has 0, 2 or 4 entries of the right accounts, types and amount; four mean
      FAILED, SETTLED means exactly two, and only a booked transfer carries a time of settlement. */
  lemma TransfersAreBookedRight(external: bool, es: seq<Event>, t: Id)
    requires ValidRun(external, es) && t in StateAfter(external, es).db.transfers
    ensures var db := StateAfter(external, es).db;
            var row, legs := db.transfers[t], EntriesFor(db, t);
            && Legs(row, legs) && (|legs| == 4 ==> row.status == Failed) && (row.status == Settled ==> |legs| == 2)
            && (row.settledAt.Some? ==> row.status != Pending && |legs| == 2)
            && row.from != row.to && row.from in db.accounts && row.to in db.accounts && 0 < row.amount <= MAX_INT64
  {
    EveryInterleavingRefinesTheAtomicBank(external, es);
    var db := StateAfter(external, es).db;
    InvKnowsDb(StateAfter(external, es));
    assert BookingOk(db, t) && RowOk(db, t);
    hide StateAfter, ValidRun, Inv, Select;
  }
}
