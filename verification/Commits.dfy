/** COMMIT refines the atomic bank: the rows and entries that a transaction publishes are those of one operation
    executed on the tables as they are at that moment, not as they were when the transaction read them. */
module Commits {
  import opened Common
  import opened Ledger
  import opened Bank
  import opened Protocol
  import opened Invariant
  import opened Statements

  /** A balance about to be published was computed from the current one, without overflow. */
  lemma BalanceIsCurrent(db: Db, w: Work, held: set<Lock>, bal: map<Id, int>, a: Id)
    requires Linked(db, w, held) && HeldShape(w, held, bal) && a in bal
    requires bal[a] == NewBalance(w, a) && 0 <= bal[a]
    requires 0 <= w.snap[a].balance <= MAX_INT64 && -MAX_INT64 <= Delta(w, a) <= MAX_INT64
    ensures CanPost(db, a, Delta(w, a)) && bal[a] == db.accounts[a].balance + Delta(w, a)
  {
    hide Select;
    assert VersionMatches(db, w, a) && SnapOk(db, a, w.snap[a]);
    var balance := w.snap[a].balance;
    if Delta(w, a) >= 0 { SumWraps(balance, Delta(w, a)); }
  }

  /** Both balances of a transfer or reversal. */
  lemma BothCurrent(db: Db, cl: Client)
    requires Linked(db, cl.w, cl.held) && HeldShape(cl.w, cl.held, cl.bal) && Posted(cl.w, cl.held, cl.bal, cl.adds)
    requires CallOk(cl.w.call) && (cl.w.call.CallTransfer? ==> ParamsValid(cl.w.call))
    ensures var w := cl.w;
            && cl.bal.Keys == {From(w), To(w)} && ValidAmount(Amount(w))
            && (forall a :: a in cl.bal ==>
                  CanPost(db, a, Delta(w, a)) && cl.bal[a] == db.accounts[a].balance + Delta(w, a))
            && (!w.call.CallMutate? ==> From(w) != To(w) && Counted(w, w.call.CallFail?))
  {
    hide Linked, RowsHeld, NewEntries, NewBalance;
    forall a | a in cl.bal
      ensures CanPost(db, a, Delta(cl.w, a)) && cl.bal[a] == db.accounts[a].balance + Delta(cl.w, a)
    {
      BalanceIsCurrent(db, cl.w, cl.held, cl.bal, a);
    }
  }

  lemma TwoAccounts(db: Db, cl: Client, from: Id, to: Id, da: int, t: Id)
    requires from != to && cl.bal.Keys == {from, to} && CanPost(db, from, da) && CanPost(db, to, -da)
    requires cl.bal[from] == db.accounts[from].balance + da && cl.bal[to] == db.accounts[to].balance - da
    ensures Publish(db, cl).accounts == Post2(db, from, da, to, -da, t).accounts
  {
  }

  lemma TwoEntries(db: Db, w: Work, from: Id, to: Id, da: int, t: Id)
    requires from != to && CanPost(db, from, da) && CanPost(db, to, -da) && da != 0 && w.tid == Some(t)
    requires from == From(w) && to == To(w) && !w.call.CallMutate?
    requires NewBalance(w, from) == db.accounts[from].balance + da && NewBalance(w, to) == db.accounts[to].balance - da
    requires Amount(w) == (if da > 0 then da else -da) && PostType(w, from) == (if da > 0 then Credit else Debit)
    requires PostType(w, to) == if da > 0 then Debit else Credit
    ensures Post2(db, from, da, to, -da, t).entries == db.entries + [NewEntry(w, 0), NewEntry(w, 1)]
  {
    hide NewBalance, Amount, PostType, From, To;
    var posted := Post2(db, from, da, to, -da, t);
    assert posted.entries[|db.entries|] == NewEntry(w, 0);
    assert posted.entries[|db.entries| + 1] == NewEntry(w, 1);
  }

  /** What a posted transfer or reversal has written. */
  lemma PostedWrites(w: Work, held: set<Lock>, bal: map<Id, int>, adds: seq<Entry>)
    requires Posted(w, held, bal, adds) && !w.call.CallMutate? && bal.Keys == {From(w), To(w)}
    ensures w.tid.Some? && adds == [NewEntry(w, 0), NewEntry(w, 1)]
    ensures bal[From(w)] == NewBalance(w, From(w)) && bal[To(w)] == NewBalance(w, To(w))
    ensures w.call.CallTransfer? || w.call.CallFail?
  {
    hide NewBalance, NewEntry, RowsHeld, Reads;
  }

  /** The published accounts and entries are those of two postings. */
  lemma PublishIsPost2(db: Db, cl: Client)
    requires Linked(db, cl.w, cl.held) && HeldShape(cl.w, cl.held, cl.bal) && Posted(cl.w, cl.held, cl.bal, cl.adds)
    requires CallOk(cl.w.call) && (cl.w.call.CallTransfer? ==> ParamsValid(cl.w.call)) && !cl.w.call.CallMutate?
    ensures var from, to, da := From(cl.w), To(cl.w), Delta(cl.w, From(cl.w));
            && cl.w.tid.Some? && from != to && CanPost(db, from, da) && CanPost(db, to, -da)
            && Publish(db, cl).accounts == Post2(db, from, da, to, -da, cl.w.tid.value).accounts
            && Publish(db, cl).entries == Post2(db, from, da, to, -da, cl.w.tid.value).entries
  {
    hide Linked, HeldShape, CallOk, NewBalance, CanPost, NewEntry, Post2, ParamsValid, Counted, Posted;
    assert Publish(db, cl).entries == db.entries + cl.adds;
    hide Publish;
    BothCurrent(db, cl);
    PostedWrites(cl.w, cl.held, cl.bal, cl.adds);
    var from, to, da := From(cl.w), To(cl.w), Delta(cl.w, From(cl.w));
    assert Delta(cl.w, to) == -da;
    TwoAccounts(db, cl, from, to, da, cl.w.tid.value);
    TwoEntries(db, cl.w, from, to, da, cl.w.tid.value);
  }

  lemma PublishedRow(db: Db, cl: Client, t: Id)
    requires cl.w.tid == Some(t) && t in db.transfers
    ensures Publish(db, cl).transfers == db.transfers[t := WrittenRow(db.transfers[t], cl.write)]
    ensures Publish(db, cl).issued == db.issued
  {
  }

  lemma PublishNothing(db: Db, cl: Client)
    requires cl.bal == map[] && cl.adds == []
    ensures Publish(db, cl).accounts == db.accounts && Publish(db, cl).entries == db.entries
  {
  }

  ghost predicate CommitsOp(db: Db, cl: Client)
    requires RowsOk(db)
  {
    && CommittedOp(cl).Some? && Guard(db, CommittedOp(cl).value)
    && Publish(db, cl) == Exec(db, CommittedOp(cl).value) && OpLocks(CommittedOp(cl).value) <= cl.held
  }

  /** The row and the entries of the transfer, as the transaction locked and counted them, are so still. */
  lemma RowIsCurrent(db: Db, cl: Client)
    requires Linked(db, cl.w, cl.held) && HeldShape(cl.w, cl.held, cl.bal) && Posted(cl.w, cl.held, cl.bal, cl.adds)
    requires CallOk(cl.w.call) && (cl.w.call.CallTransfer? ==> ParamsValid(cl.w.call)) && !cl.w.call.CallMutate?
    ensures cl.w.tid.Some? && RowIs(db, cl.w.tid.value, From(cl.w), To(cl.w), Amount(cl.w))
    ensures db.transfers[cl.w.tid.value].status == Pending && (Booked(db, cl.w.tid.value) <==> cl.w.call.CallFail?)
    ensures {TransferRow(cl.w.tid.value), AccountRow(From(cl.w)), AccountRow(To(cl.w))} <= cl.held
    ensures cl.adds != []
  {
    BothCurrent(db, cl);
    hide NewBalance, Select, RowsHeld, Reads, CanPost, NewEntry, Updated;
  }

  lemma BookCommits(db: Db, cl: Client, external: bool)
    requires CanRun(db, cl, external) && cl.pc == CommitTx && cl.w.call.CallTransfer?
    ensures CommitsOp(db, cl)
  {
    hide Posted, Linked, HeldShape, RowsOk;
    RowIsCurrent(db, cl);
    PublishIsPost2(db, cl);
    PublishedRow(db, cl, cl.w.tid.value);
    hide Publish, Post2, CanPost, Booked, CallShape, Exec;
    BookIs(db, Publish(db, cl), CommittedOp(cl).value);
  }

  /** A booking is two postings, and the status if the transfer is settled at once. */
  lemma BookIs(db: Db, db': Db, op: Op)
    requires RowsOk(db) && op.Book? && Guard(db, op) && op.from != op.to && db'.issued == db.issued
    requires var posted := Post2(db, op.from, -op.amount, op.to, op.amount, op.tid);
             db'.accounts == posted.accounts && db'.entries == posted.entries
    requires var row := db.transfers[op.tid];
             db'.transfers == db.transfers[op.tid := if op.settles then row.(status := Settled) else row]
    ensures db' == Exec(db, op)
  {
    hide RowsOk, Booked;
    assert db.transfers == db.transfers[op.tid := db.transfers[op.tid]];
  }

  lemma ReverseCommits(db: Db, cl: Client, external: bool)
    requires CanRun(db, cl, external) && cl.pc == CommitTx && cl.w.call.CallFail?
    requires Posted(cl.w, cl.held, cl.bal, cl.adds) && cl.write == WriteStatus(Failed)
    ensures CommitsOp(db, cl)
  {
    hide Posted, Linked, HeldShape, RowsOk, CommitShape;
    RowIsCurrent(db, cl);
    PublishIsPost2(db, cl);
    PublishedRow(db, cl, cl.w.tid.value);
    hide Publish, Post2, CanPost, Booked, CallShape;
  }

  lemma OneAccount(db: Db, cl: Client, a: Id, delta: int)
    requires cl.bal.Keys == {a} && CanPost(db, a, delta) && cl.bal[a] == db.accounts[a].balance + delta
    requires cl.w.call.CallMutate? && cl.w.call.account == a && cl.w.call.delta == delta && CallOk(cl.w.call)
    requires NewBalance(cl.w, a) == cl.bal[a] && cl.adds == [NewEntry(cl.w, 0)] && cl.write == NoWrite
    ensures Publish(db, cl) == Post(db, a, delta, None)
  {
    hide NewBalance;
    assert Publish(db, cl).transfers == db.transfers;
    assert Publish(db, cl).accounts == Post(db, a, delta, None).accounts;
  }

  lemma MutateCommits(db: Db, cl: Client, external: bool)
    requires CanRun(db, cl, external) && cl.pc == CommitTx && cl.w.call.CallMutate?
    ensures CommitsOp(db, cl)
  {
    hide Linked, NewBalance, RowsOk, Publish, Post, Reads, NewEntry;
    BothCurrent(db, cl);
    assert AccountRow(cl.w.call.account) in cl.held;
    hide HeldShape, Ready, CanPost;
    OneAccount(db, cl, cl.w.call.account, cl.w.call.delta);
  }

  /** Confirmations, voids, and commits that wrote nothing. */
  lemma StatusCommits(db: Db, cl: Client, external: bool)
    requires CanRun(db, cl, external) && cl.pc == CommitTx && (cl.w.call.CallSettle? || cl.w.call.CallFail?)
    requires cl.bal == map[] && cl.adds == [] && !Posted(cl.w, cl.held, cl.bal, cl.adds)
    ensures match CommittedOp(cl)
            case None => Publish(db, cl) == db
            case Some(op) => Guard(db, op) && Publish(db, cl) == Exec(db, op) && OpLocks(op) <= cl.held
  {
    var t := cl.w.tid.value;
    RowIsHeld(db, cl, external);
    hide Linked, HeldShape, RowRead, Counted, WriteShape, CallShape, NextLock, RowsOk, Booked;
    PublishNothing(db, cl);
    PublishedRow(db, cl, t);
    hide Publish, Posted, Shape;
    assert db.transfers == db.transfers[t := db.transfers[t]];
  }

  /** The row is locked, and what the call writes on it fits what it has read. */
  lemma RowIsHeld(db: Db, cl: Client, external: bool)
    requires CanRun(db, cl, external) && cl.pc == CommitTx && (cl.w.call.CallSettle? || cl.w.call.CallFail?)
    requires cl.bal == map[] && cl.adds == [] && !Posted(cl.w, cl.held, cl.bal, cl.adds)
    ensures cl.w.tid.Some? && cl.w.tid.value in db.transfers && TransferRow(cl.w.tid.value) in cl.held
    ensures cl.write != NoWrite ==> db.transfers[cl.w.tid.value].status == Pending
    ensures cl.write != NoWrite ==> (Booked(db, cl.w.tid.value) <==> cl.w.call.CallSettle?)
    ensures cl.write != NoWrite ==>
              if cl.w.call.CallSettle? then cl.write.WriteSettled? else cl.write == WriteStatus(Failed)
  {
    hide Posted, RowsOk, NextLock;
  }

  lemma CommitEffect(db: Db, cl: Client, external: bool)
    requires CanRun(db, cl, external) && cl.pc == CommitTx
    ensures Effect(db, DoCommit(db, cl, external), cl.held)
  {
    hide RowsOk, Linked, Publish, Guard, Exec, OpLocks, HeldShape, CommittedOp, Counted, RowRead;
    if cl.w.call.CallTransfer? {
      BookCommits(db, cl, external);
    } else if cl.w.call.CallMutate? {
      MutateCommits(db, cl, external);
    } else if Posted(cl.w, cl.held, cl.bal, cl.adds) {
      PostedIsReversal(cl, external);
      ReverseCommits(db, cl, external);
    } else {
      StatusCommits(db, cl, external);
    }
  }

  lemma PostedIsReversal(cl: Client, external: bool)
    requires CommitShape(cl.w, cl.held, cl.bal, cl.adds, cl.write, external) && Posted(cl.w, cl.held, cl.bal, cl.adds)
    requires !cl.w.call.CallTransfer? && !cl.w.call.CallMutate?
    ensures cl.w.call.CallFail? && cl.write == WriteStatus(Failed)
  {
  }

  lemma CommitOk(db: Db, cl: Client, external: bool)
    requires CanRun(db, cl, external) && cl.pc == CommitTx
    ensures StepOk(db, cl, DoCommit(db, cl, external), external)
  {
    CommitEffect(db, cl, external);
    CommitRest(db, cl, external);
    hide Effect, RowsOk, Publish, CommittedOp, CommitShape, CanRun, Shape, CallShape, RestShape;
  }

  lemma CommitRest(db: Db, cl: Client, external: bool)
    requires CanRun(db, cl, external) && cl.pc == CommitTx
    ensures var out := DoCommit(db, cl, external);
            Shape(out.cl, external) && Linked(out.db, out.cl.w, out.cl.held) && out.cl.held == {}
            && out.cl.w.call == cl.w.call
  {
    hide RowsOk, Posted, Counted, RowRead, Blank, NextLock;
  }
}
