/** A call that no other client interrupts does to the tables, and answers, exactly what Replies says: statement by
    statement, what is left of the call comes to the same reply. */
module Undisturbed {
  import opened Common
  import opened Ledger
  import opened Bank
  import opened Protocol
  import opened Invariant
  import opened Statements
  import opened Commits
  import opened Replies

  /** Every account is as the call has read it. */
  predicate Fresh(db: Db, w: Work) { forall a :: a in w.snap ==> a in db.accounts && w.snap[a] == db.accounts[a] }

  /** The reply of a call that is working on its row or its account. */
  ghost function Working(external: bool, db: Db, w: Work, id: Id, now: nat): Reply {
    if !w.call.CallTransfer? then ReplyTo(external, db, w.call, id, now)
    else if w.tid.Some? then BookReply(external, db, w.tid.value)
    else Reply(db, Internal)
  }

  /** The reply of a call that goes on undisturbed from where it stands. */
  ghost function Rest(external: bool, db: Db, cl: Client, id: Id, now: nat): Reply {
    match cl.pc
    case Done(result) => Reply(db, result)
    case Fetch => Reply(db, if cl.w.tid.Some? && cl.w.tid.value in db.transfers then Completed else NotFound)
    case MarkFail => if cl.w.tid.Some? then FailedReply(db, cl.w.tid.value) else Reply(db, Invalid(true))
    case Validate => ReplyTo(external, db, cl.w.call, id, now)
    case Insert => if cl.w.call.CallTransfer? then InsertReply(external, db, cl.w.call, id, now)
                   else Reply(db, Internal)
    case Find =>
      if cl.w.call.CallTransfer? && InUse(db, cl.w.call.key)
      then RepeatReply(external, db, cl.w.call, Holder(db, cl.w.call.key)) else Reply(db, Internal)
    case CommitTx =>
      if cl.w.call.CallSettle? && cl.write.WriteSettled?
      then SettleReply(db, cl.w.call.settled, cl.w.call.ref, cl.write.at) else Working(external, db, cl.w, id, now)
    case _ => Working(external, db, cl.w, id, now)
  }

  lemma RestDone(external: bool, db: Db, cl: Client, id: Id, now: nat)
    requires cl.pc.Done?
    ensures Rest(external, db, cl, id, now) == Reply(db, cl.pc.result)
  {
  }

  lemma RestFetch(external: bool, db: Db, cl: Client, id: Id, now: nat)
    requires cl.pc.Fetch? && cl.w.tid.Some? && cl.w.tid.value in db.transfers
    ensures Rest(external, db, cl, id, now) == Reply(db, Completed)
  {
  }

  lemma RestCommit(external: bool, db: Db, cl: Client, id: Id, now: nat)
    requires cl.pc.CommitTx? && !cl.w.call.CallSettle?
    ensures Rest(external, db, cl, id, now) == Working(external, db, cl.w, id, now)
  {
    hide BookReply, SettleReply, FailReply, MutateReply, StatusReply, TransferReply;
  }

  lemma RestOfRow(external: bool, db: Db, cl: Client, id: Id, now: nat)
    requires cl.pc.CommitTx?
    ensures cl.w.call.CallSettle? ==>
              Rest(external, db, cl, id, now)
              == SettleReply(db, cl.w.call.settled, cl.w.call.ref, if cl.write.WriteSettled? then cl.write.at else now)
    ensures cl.w.call.CallFail? ==> Rest(external, db, cl, id, now) == FailReply(db, cl.w.call.failed)
  {
    hide BookReply, SettleReply, FailReply, MutateReply, StatusReply, TransferReply;
  }

  lemma RestWorking(external: bool, db: Db, cl: Client, id: Id, now: nat)
    requires cl.pc.LockRow? || cl.pc.CountBooked? || cl.pc.ReadAcc? || cl.pc.LockAcc? || cl.pc.UpdateAcc?
             || cl.pc.AddEntry? || cl.pc.WriteRow?
    ensures Rest(external, db, cl, id, now) == Working(external, db, cl.w, id, now)
  {
    hide BookReply, SettleReply, FailReply, MutateReply, StatusReply, TransferReply;
  }

  lemma RestBoth(external: bool, db: Db, cl: Client, out: Out, id: Id, later: nat)
    requires cl.pc.LockAcc? || cl.pc.UpdateAcc? || cl.pc.AddEntry?
    requires out.cl.pc.Done? || out.cl.pc.LockAcc? || out.cl.pc.UpdateAcc? || out.cl.pc.AddEntry? || out.cl.pc.WriteRow?
             || (out.cl.pc.CommitTx? && !out.cl.w.call.CallSettle?)
    ensures Rest(external, db, cl, id, later) == Working(external, db, cl.w, id, later)
    ensures Rest(external, out.db, out.cl, id, later)
            == if out.cl.pc.Done? then Reply(out.db, out.cl.pc.result)
            else Working(external, out.db, out.cl.w, id, later)
  {
    hide Rest, Working;
    RestWorking(external, db, cl, id, later);
    if out.cl.pc.Done? { RestDone(external, out.db, out.cl, id, later); }
    else if out.cl.pc.CommitTx? { RestCommit(external, out.db, out.cl, id, later); }
    else { RestWorking(external, out.db, out.cl, id, later); }
  }

  lemma WorkingStays(external: bool, db: Db, w: Work, w': Work, id: Id, later: nat)
    requires w'.call == w.call && w'.tid == w.tid
    ensures Working(external, db, w', id, later) == Working(external, db, w, id, later)
  {
    hide BookReply, ReplyTo;
  }

  /** The identifier and the time that the statement at pc uses up, or those that later statements will. */
  function IdOf(pc: Pc, newId: Id, id: Id): Id { if pc.Insert? || pc.OpenAcc? then newId else id }

  function TimeOf(pc: Pc, now: nat, later: nat): nat { if pc.Insert? || pc.WriteRow? then now else later }

  /** The statement leaves as much of the reply as it finds. */
  ghost predicate Same(external: bool, db: Db, cl: Client, out: Out, newId: Id, now: nat, id: Id, later: nat) {
    Rest(external, db, cl, IdOf(cl.pc, newId, id), TimeOf(cl.pc, now, later)) ==
      Rest(external, out.db, out.cl, id, later)
  }

  /** What client cl may count on when its statement runs. */
  ghost predicate Stands(db: Db, cl: Client, external: bool) {
    DbInv(db) && CanRun(db, cl, external) && Fresh(db, cl.w) && Typed(cl)
  }

  // --------------------------------------------------------------------------------------- before the transfer row

  lemma ValidateSame(db: Db, cl: Client, external: bool, newId: Id, now: nat, id: Id, later: nat)
    requires cl.pc == Validate && cl.w.call.CallTransfer?
    ensures Same(external, db, cl, DoValidate(db, cl), newId, now, id, later)
  {
    hide InsertReply;
  }

  lemma InsertSame(db: Db, cl: Client, external: bool, newId: Id, now: nat, id: Id, later: nat)
    requires cl.pc == Insert && cl.w.call.CallTransfer?
    ensures Same(external, db, cl, DoInsert(db, cl, newId, now), newId, now, id, later)
  {
    hide RepeatReply, BookReply;
    assert KeyTaken(db, cl.w.call.key) <==> InUse(db, cl.w.call.key);
    hide KeyTaken, InUse;
  }

  lemma FindSame(db: Db, cl: Client, external: bool, newId: Id, now: nat, id: Id, later: nat)
    requires KeysUnique(db) && cl.pc == Find && cl.w.call.CallTransfer? && ParamsValid(cl.w.call)
    ensures Same(external, db, cl, DoFind(db, cl), newId, now, id, later)
  {
    hide BookReply;
    assert KeyTaken(db, cl.w.call.key) <==> InUse(db, cl.w.call.key);
    if InUse(db, cl.w.call.key) { assert Holder(db, cl.w.call.key) == ByKey(db, cl.w.call.key); }
    hide KeyTaken, InUse, KeysUnique, Holder, ByKey;
  }

  // ------------------------------------------------------------------------------------------------ the transfer row

  lemma LockRowSame(db: Db, cl: Client, clock: nat, external: bool, newId: Id, now: nat, id: Id, later: nat)
    requires cl.pc == LockRow && Typed(cl) && CallShape(cl)
    ensures Same(external, db, cl, DoLockRow(db, cl, clock, external), newId, now, id, later)
  {
    hide HasEntries, ReverseReply, Continues, ParamsValid;
  }

  /** The PENDING row that the call has locked. */
  lemma LockedRow(db: Db, w: Work, held: set<Lock>)
    requires Linked(db, w, held) && RowRead(w, Pending)
    ensures w.tid.Some? && w.tid.value in db.transfers && w.row == Some(db.transfers[w.tid.value])
    ensures var row := db.transfers[w.tid.value];
            && row.status == Pending && row.from != row.to && ValidAmount(row.amount)
            && (w.call.CallTransfer? ==> row.from == w.call.from && row.to == w.call.to && row.amount == w.call.amount)
  {
    hide Select, SnapOk, VersionMatches, Remembers;
  }

  /** Its entries, once they are counted. */
  lemma CountedRow(db: Db, w: Work, held: set<Lock>, some: bool)
    requires Linked(db, w, held) && Counted(w, some)
    ensures w.tid.Some? && (HasEntries(db, w.tid.value) <==> some)
  {
    BookedHasEntries(db, w.tid.value);
    hide Select, SnapOk, VersionMatches, Remembers, HasEntries;
  }

  lemma CountBookedSame(db: Db, cl: Client, external: bool, newId: Id, now: nat, id: Id, later: nat)
    requires cl.pc == CountBooked && Shape(cl, external) && Linked(db, cl.w, cl.held)
    ensures Same(external, db, cl, DoCountBooked(db, cl, external), newId, now, id, later)
  {
    assert RowRead(cl.w, Pending);
    LockedRow(db, cl.w, cl.held);
    BookedHasEntries(db, cl.w.tid.value);
    hide Linked, HeldShape, HasEntries, Select, ReverseReply, PcShape, RowRead;
  }

  // ------------------------------------------------------------------------------------------------ accounts

  /** A Transfer that is about to read or update accounts. */
  lemma TransferAt(db: Db, cl: Client, external: bool)
    requires Shape(cl, external) && Linked(db, cl.w, cl.held) && cl.w.call.CallTransfer? && Counted(cl.w, false)
    ensures cl.w.tid.Some? && cl.w.tid.value in db.transfers && !HasEntries(db, cl.w.tid.value)
    ensures var row := db.transfers[cl.w.tid.value];
            && row.status == Pending && row.from == From(cl.w) && row.to == To(cl.w) && row.amount == Amount(cl.w)
            && row.from != row.to && ValidAmount(row.amount)
  {
    LockedRow(db, cl.w, cl.held);
    CountedRow(db, cl.w, cl.held, false);
    hide Shape, Linked, HasEntries;
  }

  lemma ReadAccTransferSame(db: Db, cl: Client, n: nat, external: bool, newId: Id, now: nat, id: Id, later: nat)
    requires cl.pc == ReadAcc(n) && Shape(cl, external) && Linked(db, cl.w, cl.held) && Fresh(db, cl.w)
    requires cl.w.call.CallTransfer?
    ensures Same(external, db, cl, DoReadAcc(db, cl, n), newId, now, id, later)
  {
    assert ReadShape(cl, n);
    TransferAt(db, cl, external);
    FirstRead(db, cl, n);
    hide Shape, Linked, HasEntries, Counted, Reads, InUse;
    if ReadAt(cl.w, n) in db.accounts { SecondBalance(db, cl.w, n); }
    hide Fresh, SnapBalance;
  }

  lemma FirstRead(db: Db, cl: Client, n: nat)
    requires ReadShape(cl, n) && Fresh(db, cl.w) && cl.w.call.CallTransfer?
    ensures n < 2 && (n == 1 ==> IsActive(db, ReadAt(cl.w, 0)))
    ensures n == 1 ==> ReadAt(cl.w, 0) in cl.w.snap
  {
    hide Counted;
  }

  lemma SecondBalance(db: Db, w: Work, n: nat)
    requires Fresh(db, w) && w.call.CallTransfer? && n < 2 && ReadAt(w, n) in db.accounts
    requires n == 1 ==> ReadAt(w, 0) in w.snap
    ensures n == 1 ==> From(w) in db.accounts
                       && SnapBalance(Read(db, w, ReadAt(w, n)), From(w)) == db.accounts[From(w)].balance
  {
  }

  lemma ReadAccMutateSame(db: Db, cl: Client, n: nat, external: bool, newId: Id, now: nat, id: Id, later: nat)
    requires cl.pc == ReadAcc(n) && Shape(cl, external) && AccountsOk(db) && cl.w.call.CallMutate?
    ensures Same(external, db, cl, DoReadAcc(db, cl, n), newId, now, id, later)
  {
    var a := cl.w.call.account;
    assert a in db.accounts ==> AccountOk(db, a);
    assert CallOk(cl.w.call);
    hide Shape, AccountsOk, Running, Net, Select;
  }

  /** A reversal has counted the entries of its row. */
  lemma FailAt(db: Db, cl: Client, external: bool)
    requires Shape(cl, external) && Linked(db, cl.w, cl.held) && cl.w.call.CallFail? && Counted(cl.w, true)
    ensures cl.w.tid == Some(cl.w.call.failed) && cl.w.call.failed in db.transfers && HasEntries(db, cl.w.call.failed)
    ensures var row := db.transfers[cl.w.call.failed];
            && row.status == Pending && row.from == From(cl.w) && row.to == To(cl.w) && row.amount == Amount(cl.w)
            && row.from != row.to && ValidAmount(row.amount)
  {
    LockedRow(db, cl.w, cl.held);
    CountedRow(db, cl.w, cl.held, true);
    hide PcShape, HeldShape, Linked, HasEntries;
  }

  /** The reply of a reversal, as far as the accounts decide it. */
  lemma FailWorking(db: Db, cl: Client, external: bool, id: Id, now: nat)
    requires Shape(cl, external) && Linked(db, cl.w, cl.held) && cl.w.call.CallFail? && Counted(cl.w, true)
    ensures cl.w.call.failed in db.transfers
    ensures Working(external, db, cl.w, id, now)
            == ReverseReply(db, cl.w.call.failed, db.transfers[cl.w.call.failed])
  {
    FailAt(db, cl, external);
    hide Shape, Linked, HasEntries, ReverseReply, Counted;
  }

  lemma ToBalance(db: Db, w: Work, a: Id)
    requires Fresh(db, w) && w.call.CallFail? && a == ReadAt(w, 1) && a in db.accounts
    requires To(w) == a || To(w) in w.snap
    ensures To(w) in db.accounts && SnapBalance(Read(db, w, a), To(w)) == db.accounts[To(w)].balance
  {
  }

  /** What the second account decides: the money is there to be given back, or it is not. */
  lemma SpentExactly(db: Db, cl: Client, external: bool)
    requires Shape(cl, external) && Linked(db, cl.w, cl.held) && AccountsOk(db) && Fresh(db, cl.w)
    requires cl.pc == LockAcc(1) && cl.w.call.CallFail? && ReadAt(cl.w, 1) in db.accounts
    ensures Counted(cl.w, true) && From(cl.w) in db.accounts && To(cl.w) in db.accounts
    ensures var w := Read(db, cl.w, ReadAt(cl.w, 1));
            NewBalance(w, To(cl.w)) < 0 <==> db.accounts[To(cl.w)].balance < Amount(cl.w)
  {
    assert LockShape(cl, 1);
    LockedRow(db, cl.w, cl.held);
    hide Shape, Linked, Counted;
    assert From(cl.w) != To(cl.w) && ValidAmount(Amount(cl.w));
    ToBalance(db, cl.w, ReadAt(cl.w, 1));
    assert AccountOk(db, To(cl.w));
    hide AccountsOk, Running, Net, Select, RowsHeld;
  }

  lemma LockAccSame(db: Db, cl: Client, n: nat, external: bool, newId: Id, now: nat, id: Id, later: nat)
    requires cl.pc == LockAcc(n) && Shape(cl, external) && Linked(db, cl.w, cl.held) && AccountsOk(db)
    requires Fresh(db, cl.w)
    ensures Same(external, db, cl, DoLockAcc(db, cl, n), newId, now, id, later)
  {
    assert LockShape(cl, n);
    FailWorking(db, cl, external, id, later);
    FailAt(db, cl, external);
    if n == 1 && ReadAt(cl.w, 1) in db.accounts { SpentExactly(db, cl, external); }
    RestBoth(external, db, cl, DoLockAcc(db, cl, n), id, later);
    WorkingStays(external, db, cl.w, DoLockAcc(db, cl, n).cl.w, id, later);
    hide Rest, Working, Shape, Linked, AccountsOk, Fresh, HasEntries, NewBalance, Counted, Reads, RowsHeld;
  }

  // --------------------------------------------------------------------------------------------- updates

  /** Both accounts, or the one, are read as they are; their versions match. */
  lemma ReadyRead(db: Db, w: Work, held: set<Lock>)
    requires Ready(w, held) && Fresh(db, w)
    ensures From(w) in w.snap && To(w) in w.snap && From(w) in db.accounts && To(w) in db.accounts
    ensures SnapBalance(w, From(w)) == db.accounts[From(w)].balance
    ensures SnapBalance(w, To(w)) == db.accounts[To(w)].balance
    ensures VersionMatches(db, w, From(w)) && VersionMatches(db, w, To(w))
    ensures !w.call.CallFail? ==> IsActive(db, From(w)) && IsActive(db, To(w))
    ensures 0 <= db.accounts[From(w)].balance <= MAX_INT64 && 0 <= db.accounts[To(w)].balance <= MAX_INT64
  {
    hide NewBalance, RowsHeld, Counted;
  }

  /** A transfer that is ready is booked, unless its destination would overflow. */
  lemma BookWorking(db: Db, cl: Client, external: bool, id: Id, now: nat)
    requires Shape(cl, external) && Linked(db, cl.w, cl.held) && Fresh(db, cl.w) && Ready(cl.w, cl.held)
    requires cl.w.call.CallTransfer?
    ensures From(cl.w) in db.accounts && To(cl.w) in db.accounts && From(cl.w) != To(cl.w)
    ensures 0 < Amount(cl.w) <= db.accounts[From(cl.w)].balance <= MAX_INT64
    ensures 0 <= db.accounts[To(cl.w)].balance <= MAX_INT64 && Amount(cl.w) <= MAX_INT64
    ensures db.accounts[To(cl.w)].balance + Amount(cl.w) > MAX_INT64 ==>
              Working(external, db, cl.w, id, now) == Reply(db, Internal)
  {
    ReadyRead(db, cl.w, cl.held);
    assert Counted(cl.w, false) && Amount(cl.w) <= SnapBalance(cl.w, From(cl.w));
    TransferAt(db, cl, external);
    hide Shape, Linked, Fresh, HasEntries, Ready, Counted, SnapBalance, InStatus, From, To, Amount;
  }

  lemma TransferBalances(db: Db, w: Work, a: Id)
    requires w.call.CallTransfer? && From(w) in db.accounts && To(w) in db.accounts && From(w) != To(w)
    requires a == From(w) || a == To(w)
    requires SnapBalance(w, From(w)) == db.accounts[From(w)].balance
    requires SnapBalance(w, To(w)) == db.accounts[To(w)].balance
    requires 0 < Amount(w) <= db.accounts[From(w)].balance <= MAX_INT64
    requires 0 <= db.accounts[To(w)].balance <= MAX_INT64
    ensures NewBalance(w, a) < 0 <==> a == To(w) && db.accounts[To(w)].balance + Amount(w) > MAX_INT64
  {
    hide SnapBalance;
  }

  lemma UpdateTransferSame(db: Db, cl: Client, n: nat, external: bool, newId: Id, now: nat, id: Id, later: nat)
    requires cl.pc == UpdateAcc(n) && Shape(cl, external) && Linked(db, cl.w, cl.held) && Fresh(db, cl.w)
    requires cl.w.call.CallTransfer?
    ensures Same(external, db, cl, DoUpdateAcc(db, cl, n), newId, now, id, later)
  {
    assert Ready(cl.w, cl.held) && n < 2;
    ReadyRead(db, cl.w, cl.held);
    BookWorking(db, cl, external, id, later);
    TransferBalances(db, cl.w, UpdateAt(cl.w, n));
    RestBoth(external, db, cl, DoUpdateAcc(db, cl, n), id, later);
    hide Rest, Shape, Linked, Fresh, NewBalance, Ready, VersionMatches, SnapBalance, Working;
  }

  /** A reversal that is ready is done, unless its origin would overflow. */
  lemma FailReady(db: Db, cl: Client, external: bool, id: Id, now: nat)
    requires Shape(cl, external) && Linked(db, cl.w, cl.held) && Fresh(db, cl.w) && Ready(cl.w, cl.held)
    requires cl.w.call.CallFail?
    ensures From(cl.w) in db.accounts && To(cl.w) in db.accounts && From(cl.w) != To(cl.w)
    ensures 0 < Amount(cl.w) <= db.accounts[To(cl.w)].balance <= MAX_INT64
    ensures 0 <= db.accounts[From(cl.w)].balance <= MAX_INT64
    ensures db.accounts[From(cl.w)].balance + Amount(cl.w) > MAX_INT64 ==>
              Working(external, db, cl.w, id, now) == Reply(db, Internal)
  {
    ReadyRead(db, cl.w, cl.held);
    assert Counted(cl.w, true) && 0 <= NewBalance(cl.w, To(cl.w));
    FailAt(db, cl, external);
    FailWorking(db, cl, external, id, now);
    hide Shape, Linked, Fresh, HasEntries, Ready, Counted, SnapBalance, Working, InStatus, From, To, Amount;
    BackBalance(db, cl.w);
  }

  lemma BackBalance(db: Db, w: Work)
    requires w.call.CallFail? && From(w) != To(w) && To(w) in db.accounts && 0 < Amount(w) <= MAX_INT64
    requires SnapBalance(w, To(w)) == db.accounts[To(w)].balance && 0 <= db.accounts[To(w)].balance <= MAX_INT64
    ensures 0 <= NewBalance(w, To(w)) ==> Amount(w) <= db.accounts[To(w)].balance
  {
    hide SnapBalance, From, To, Amount;
  }

  lemma FailBalances(db: Db, w: Work, a: Id)
    requires w.call.CallFail? && From(w) in db.accounts && To(w) in db.accounts && From(w) != To(w)
    requires a == From(w) || a == To(w)
    requires SnapBalance(w, From(w)) == db.accounts[From(w)].balance
    requires SnapBalance(w, To(w)) == db.accounts[To(w)].balance
    requires 0 < Amount(w) <= db.accounts[To(w)].balance <= MAX_INT64
    requires 0 <= db.accounts[From(w)].balance <= MAX_INT64
    ensures NewBalance(w, a) < 0 <==> a == From(w) && db.accounts[From(w)].balance + Amount(w) > MAX_INT64
  {
    hide SnapBalance, From, To, Amount;
  }

  lemma UpdateFailSame(db: Db, cl: Client, n: nat, external: bool, newId: Id, now: nat, id: Id, later: nat)
    requires cl.pc == UpdateAcc(n) && Shape(cl, external) && Linked(db, cl.w, cl.held) && Fresh(db, cl.w)
    requires cl.w.call.CallFail?
    ensures Same(external, db, cl, DoUpdateAcc(db, cl, n), newId, now, id, later)
  {
    assert Ready(cl.w, cl.held) && n < 2;
    ReadyRead(db, cl.w, cl.held);
    FailReady(db, cl, external, id, later);
    FailBalances(db, cl.w, UpdateAt(cl.w, n));
    RestBoth(external, db, cl, DoUpdateAcc(db, cl, n), id, later);
    hide Rest, Shape, Linked, Fresh, NewBalance, Ready, VersionMatches, SnapBalance, Working;
  }

  lemma UpdateMutateSame(db: Db, cl: Client, n: nat, external: bool, newId: Id, now: nat, id: Id, later: nat)
    requires cl.pc == UpdateAcc(n) && Shape(cl, external) && Fresh(db, cl.w) && cl.w.call.CallMutate?
    ensures Same(external, db, cl, DoUpdateAcc(db, cl, n), newId, now, id, later)
  {
    assert Ready(cl.w, cl.held) && UpdateAt(cl.w, n) == cl.w.call.account;
    ReadyRead(db, cl.w, cl.held);
    RestBoth(external, db, cl, DoUpdateAcc(db, cl, n), id, later);
    hide Rest, Shape, Fresh, NewBalance, VersionMatches, SnapBalance, Working;
  }

  lemma UpdateAccSame(db: Db, cl: Client, n: nat, external: bool, newId: Id, now: nat, id: Id, later: nat)
    requires cl.pc == UpdateAcc(n) && Shape(cl, external) && Linked(db, cl.w, cl.held) && Fresh(db, cl.w)
    ensures Same(external, db, cl, DoUpdateAcc(db, cl, n), newId, now, id, later)
  {
    ReadyCall(cl.w, cl.held);
    hide Shape, Linked, Fresh, Same, DoUpdateAcc, Ready;
    if cl.w.call.CallTransfer? { UpdateTransferSame(db, cl, n, external, newId, now, id, later); }
    else if cl.w.call.CallFail? { UpdateFailSame(db, cl, n, external, newId, now, id, later); }
    else { UpdateMutateSame(db, cl, n, external, newId, now, id, later); }
  }

  // ----------------------------------------------------------------------------------------- private writes

  lemma AddEntrySame(db: Db, cl: Client, n: nat, external: bool, newId: Id, now: nat, id: Id, later: nat)
    requires cl.pc == AddEntry(n) && Shape(cl, external)
    ensures Same(external, db, cl, DoAddEntry(db, cl, n, external), newId, now, id, later)
  {
    ReadyCall(cl.w, cl.held);
    hide Shape, Ready, Working, NewEntry, Rest;
    RestBoth(external, db, cl, DoAddEntry(db, cl, n, external), id, later);
  }

  lemma WriteRowSame(db: Db, cl: Client, external: bool, newId: Id, now: nat, id: Id, later: nat)
    requires cl.pc == WriteRow && Shape(cl, external)
    ensures Same(external, db, cl, DoWriteRow(db, cl, now), newId, now, id, later)
  {
    hide Shape, BookReply, SettleReply, FailReply, MutateReply, StatusReply, TransferReply;
  }

  // ---------------------------------------------------------------------------------------------------- COMMIT

  /** The booking of the atomic bank is the one that the reply tells. */
  lemma BookIsReply(external: bool, db: Db, t: Id, from: Id, to: Id, amount: int)
    requires RowsOk(db) && Guard(db, Book(t, from, to, amount, !external)) && IsActive(db, from) && IsActive(db, to)
    requires amount <= db.accounts[from].balance
    ensures BookReply(external, db, t)
            == Reply(Exec(db, Book(t, from, to, amount, !external)), Accepted(if external then Pending else Settled))
  {
    BookedHasEntries(db, t);
    assert RowOk(db, t);
    hide RowsOk, Booked, HasEntries;
    var left, more := db.accounts[from].balance - amount, db.accounts[to].balance + amount;
    var e, f := Entry(from, Debit, amount, left, Some(t)), Entry(to, Credit, amount, more, Some(t));
    assert db.entries + [e] + [f] == db.entries + [e, f];
  }

  lemma ReverseIsReply(db: Db, t: Id, from: Id, to: Id, amount: int)
    requires RowsOk(db) && Guard(db, Op.Reverse(t, from, to, amount))
    ensures FailReply(db, t) == Reply(Exec(db, Op.Reverse(t, from, to, amount)), Completed)
  {
    BookedHasEntries(db, t);
    assert RowOk(db, t);
    hide RowsOk, Booked, HasEntries;
    var back, rest := db.accounts[from].balance + amount, db.accounts[to].balance - amount;
    var e, f := Entry(from, Credit, amount, back, Some(t)), Entry(to, Debit, amount, rest, Some(t));
    assert db.entries + [e] + [f] == db.entries + [e, f];
  }

  lemma MutateIsReply(db: Db, a: Id, delta: int, typ: EntryType)
    requires RowsOk(db) && Guard(db, Op.Mutate(a, delta)) && IsActive(db, a) && CallOk(CallMutate(a, delta, typ))
    ensures MutateReply(db, a, delta, typ) == Reply(Exec(db, Op.Mutate(a, delta)), Completed)
  {
    hide RowsOk;
  }

  lemma ConfirmIsReply(db: Db, t: Id, ref: string, at: nat, stored: Option<string>)
    requires RowsOk(db) && Guard(db, Op.Confirm(t, at, stored)) && stored == RefArg(ref)
    ensures SettleReply(db, t, ref, at) == Reply(Exec(db, Op.Confirm(t, at, stored)), Completed)
    ensures t in Exec(db, Op.Confirm(t, at, stored)).transfers
  {
    BookedHasEntries(db, t);
    hide RowsOk, Booked, HasEntries;
  }

  lemma VoidIsReply(db: Db, t: Id)
    requires RowsOk(db) && Guard(db, Op.Void(t))
    ensures FailReply(db, t) == Reply(Exec(db, Op.Void(t)), Completed) && t in Exec(db, Op.Void(t)).transfers
  {
    BookedHasEntries(db, t);
    hide RowsOk, Booked, HasEntries, ReverseReply;
  }

  /** COMMIT publishes the operation that it stands for. */
  ghost predicate CommitIs(db: Db, cl: Client)
    requires RowsOk(db)
  {
    match CommittedOp(cl)
    case None => Publish(db, cl) == db
    case Some(op) => Guard(db, op) && Publish(db, cl) == Exec(db, op)
  }

  lemma CommitHappens(db: Db, cl: Client, external: bool)
    requires Stands(db, cl, external) && cl.pc == CommitTx
    ensures RowsOk(db) && CommitIs(db, cl)
  {
    CommitEffect(db, cl, external);
    hide Stands, Shape, Linked, Guard, Exec, RowsOk, Publish, Continues, CommittedOp;
  }

  /** What COMMIT publishes for a transfer, and what it then answers, is the reply. */
  lemma TransferPublished(db: Db, cl: Client, external: bool, id: Id, now: nat)
    requires Stands(db, cl, external) && cl.pc == CommitTx && cl.w.call.CallTransfer?
    ensures Working(external, db, cl.w, id, now)
            == Reply(Publish(db, cl), Accepted(if external then Pending else Settled))
  {
    CommitHappens(db, cl, external);
    BothFunded(db, cl, external);
    hide Stands, Guard, Exec, RowsOk, BookReply, Publish, CanRun, DbInv, Fresh;
    var call := cl.w.call;
    BookIsReply(external, db, cl.w.tid.value, call.from, call.to, call.amount);
  }

  lemma BookedHasRow(w: Work)
    requires Counted(w, false)
    ensures w.tid.Some?
  {
  }

  /** What a Transfer has checked when it commits its booking. */
  lemma BothFunded(db: Db, cl: Client, external: bool)
    requires Stands(db, cl, external) && cl.pc == CommitTx && cl.w.call.CallTransfer?
    ensures cl.w.tid.Some? && cl.write == (if external then NoWrite else WriteStatus(Settled))
    ensures IsActive(db, cl.w.call.from) && IsActive(db, cl.w.call.to)
    ensures cl.w.call.amount <= db.accounts[cl.w.call.from].balance
  {
    hide DbInv, RowsOk, Linked, HeldShape, CallShape, NextLock, Typed, Updated, NewEntries, NewBalance, Reads, Counted;
    var w := cl.w;
    assert CommitShape(w, cl.held, cl.bal, cl.adds, cl.write, external);
    assert Ready(w, cl.held) && Counted(w, false) && w.call.amount <= SnapBalance(w, w.call.from);
    BookedHasRow(w);
    hide CommitShape, Ready, SnapBalance, From, To, Fresh, PcShape;
    ReadyRead(db, w, cl.held);
    TransferArgs(w);
  }

  lemma TransferArgs(w: Work)
    requires w.call.CallTransfer?
    ensures From(w) == w.call.from && To(w) == w.call.to && Amount(w) == w.call.amount
  {
  }

  lemma CommitTransferSame(db: Db, cl: Client, external: bool, newId: Id, now: nat, id: Id, later: nat)
    requires Stands(db, cl, external) && cl.pc == CommitTx && cl.w.call.CallTransfer?
    ensures Same(external, db, cl, DoCommit(db, cl, external), newId, now, id, later)
  {
    TransferPublished(db, cl, external, id, later);
    var out := DoCommit(db, cl, external);
    RestCommit(external, db, cl, id, later);
    RestDone(external, out.db, out.cl, id, later);
    hide Stands, Publish, CommittedOp, Rest, Working, Continues, SettleReply, FailReply;
  }

  lemma MutatePublished(db: Db, cl: Client, external: bool, id: Id, now: nat)
    requires Stands(db, cl, external) && cl.pc == CommitTx && cl.w.call.CallMutate?
    ensures Working(external, db, cl.w, id, now) == Reply(Publish(db, cl), Completed)
  {
    var w := cl.w;
    assert Ready(w, cl.held) && CallOk(w.call);
    ReadyRead(db, w, cl.held);
    CommitHappens(db, cl, external);
    MutateIsReply(db, w.call.account, w.call.delta, w.call.typ);
    hide Stands, Shape, Linked, Fresh, Ready, Guard, Exec, RowsOk, MutateReply, Publish, SnapBalance, VersionMatches;
  }

  lemma CommitMutateSame(db: Db, cl: Client, external: bool, newId: Id, now: nat, id: Id, later: nat)
    requires Stands(db, cl, external) && cl.pc == CommitTx && cl.w.call.CallMutate?
    ensures Same(external, db, cl, DoCommit(db, cl, external), newId, now, id, later)
  {
    MutatePublished(db, cl, external, id, later);
    var out := DoCommit(db, cl, external);
    RestCommit(external, db, cl, id, later);
    RestDone(external, out.db, out.cl, id, later);
    hide Stands, Publish, CommittedOp, Rest, Working, Continues, SettleReply, FailReply;
  }

  /** What a Settle or Fail has locked when it commits: the row as it wants it, or the PENDING row. */
  lemma CommitRow(db: Db, cl: Client, external: bool)
    requires Shape(cl, external) && Linked(db, cl.w, cl.held) && cl.pc == CommitTx
    requires cl.w.call.CallSettle? || cl.w.call.CallFail?
    ensures cl.w.tid == Some(if cl.w.call.CallSettle? then cl.w.call.settled else cl.w.call.failed)
    ensures cl.w.tid.value in db.transfers
    ensures cl.write == NoWrite ==>
              db.transfers[cl.w.tid.value].status == if cl.w.call.CallSettle? then Settled else Failed
    ensures cl.w.call.CallSettle? && cl.write != NoWrite ==>
              cl.write.WriteSettled? && cl.write.ref == RefArg(cl.w.call.ref)
    ensures cl.w.call.CallFail? && cl.adds != [] ==> From(cl.w) in cl.w.snap
  {
    hide Select, SnapOk, VersionMatches, Remembers, NewBalance, RowsHeld, NewEntry, HeldShape;
  }

  lemma SettlePublished(db: Db, cl: Client, external: bool, now: nat)
    requires Stands(db, cl, external) && cl.pc == CommitTx && cl.w.call.CallSettle?
    ensures cl.w.tid.Some? && cl.w.tid.value in Publish(db, cl).transfers
    ensures SettleReply(db, cl.w.call.settled, cl.w.call.ref, if cl.write.WriteSettled? then cl.write.at else now)
            == Reply(Publish(db, cl), Completed)
  {
    CommitRow(db, cl, external);
    CommitHappens(db, cl, external);
    PublishKeepsRow(db, cl);
    if cl.write != NoWrite { ConfirmIsReply(db, cl.w.call.settled, cl.w.call.ref, cl.write.at, cl.write.ref); }
    hide Stands, Shape, Linked, Fresh, Guard, Exec, RowsOk, Publish, HasEntries, RefArg;
  }

  lemma CommitSettleSame(db: Db, cl: Client, external: bool, newId: Id, now: nat, id: Id, later: nat)
    requires Stands(db, cl, external) && cl.pc == CommitTx && cl.w.call.CallSettle?
    ensures Same(external, db, cl, DoCommit(db, cl, external), newId, now, id, later)
  {
    SettlePublished(db, cl, external, later);
    RestOfRow(external, db, cl, id, later);
    var out := DoCommit(db, cl, external);
    RestFetch(external, out.db, out.cl, id, later);
    hide Stands, Publish, CommittedOp, Rest, Working, Continues, SettleReply, FailReply;
  }

  lemma FailPublished(db: Db, cl: Client, external: bool)
    requires Stands(db, cl, external) && cl.pc == CommitTx && cl.w.call.CallFail?
    ensures cl.w.tid.Some? && cl.w.tid.value in Publish(db, cl).transfers
    ensures FailReply(db, cl.w.call.failed) == Reply(Publish(db, cl), Completed)
  {
    CommitRow(db, cl, external);
    PublishKeepsRow(db, cl);
    FailEffect(db, cl, external);
    hide Stands, Shape, Linked, Guard, Exec, RowsOk, Publish, ReverseReply;
    if cl.write != NoWrite { WrittenFail(db, cl); }
    hide FailReply;
    if cl.write == NoWrite { FailedStays(db, cl.w.call.failed); }
  }

  lemma FailedStays(db: Db, t: Id)
    requires t in db.transfers && db.transfers[t].status == Failed
    ensures FailReply(db, t) == Reply(db, Completed)
  {
  }

  lemma FailEffect(db: Db, cl: Client, external: bool)
    requires Stands(db, cl, external) && cl.pc == CommitTx && cl.w.call.CallFail?
    ensures RowsOk(db) && cl.w.tid == Some(cl.w.call.failed)
    ensures CommitIs(db, cl) && (cl.write == NoWrite <==> CommittedOp(cl).None?)
  {
    CommitRow(db, cl, external);
    CommitHappens(db, cl, external);
    hide Stands, Shape, Linked, CommitIs, RowsOk;
  }

  lemma WrittenFail(db: Db, cl: Client)
    requires RowsOk(db) && cl.w.call.CallFail? && cl.w.tid == Some(cl.w.call.failed) && CommittedOp(cl).Some?
    requires Guard(db, CommittedOp(cl).value) && Publish(db, cl) == Exec(db, CommittedOp(cl).value)
    ensures FailReply(db, cl.w.call.failed) == Reply(Publish(db, cl), Completed)
  {
    hide Guard, Exec, RowsOk, Publish, FailReply, From, To, Amount;
    if cl.adds == [] { VoidIsReply(db, cl.w.call.failed); }
    else { ReverseIsReply(db, cl.w.call.failed, From(cl.w), To(cl.w), Amount(cl.w)); }
  }

  lemma CommitFailSame(db: Db, cl: Client, external: bool, newId: Id, now: nat, id: Id, later: nat)
    requires Stands(db, cl, external) && cl.pc == CommitTx && cl.w.call.CallFail?
    ensures Same(external, db, cl, DoCommit(db, cl, external), newId, now, id, later)
  {
    FailPublished(db, cl, external);
    RestOfRow(external, db, cl, id, later);
    var out := DoCommit(db, cl, external);
    RestFetch(external, out.db, out.cl, id, later);
    hide Stands, Publish, CommittedOp, Rest, Working, Continues, SettleReply, FailReply;
  }

  lemma PublishKeepsRow(db: Db, cl: Client)
    requires cl.w.tid.Some? && cl.w.tid.value in db.transfers
    ensures cl.w.tid.value in Publish(db, cl).transfers
  {
  }

  lemma CommitSame(db: Db, cl: Client, external: bool, newId: Id, now: nat, id: Id, later: nat)
    requires Stands(db, cl, external) && cl.pc == CommitTx
    ensures Same(external, db, cl, DoCommit(db, cl, external), newId, now, id, later)
  {
    CommitCalls(cl, external);
    hide Stands, Same, DoCommit;
    if cl.w.call.CallTransfer? { CommitTransferSame(db, cl, external, newId, now, id, later); }
    else if cl.w.call.CallMutate? { CommitMutateSame(db, cl, external, newId, now, id, later); }
    else if cl.w.call.CallSettle? { CommitSettleSame(db, cl, external, newId, now, id, later); }
    else { CommitFailSame(db, cl, external, newId, now, id, later); }
  }

  lemma CommitCalls(cl: Client, external: bool)
    requires cl.pc == CommitTx && Shape(cl, external)
    ensures cl.w.call.CallTransfer? || cl.w.call.CallMutate? || cl.w.call.CallSettle? || cl.w.call.CallFail?
  {
    hide Posted, HeldShape, CallShape, Counted, RowRead;
  }

  // ---------------------------------------------------------------------------------------------- single statements

  lemma SmallSame(db: Db, cl: Client, external: bool, newId: Id, now: nat, clock: nat, id: Id, later: nat)
    requires Stands(db, cl, external)
    requires cl.pc.MarkFail? || cl.pc.Fetch? || cl.pc.OpenAcc? || cl.pc.WriteAccStatus? || cl.pc.LockTables?
             || cl.pc.TruncateAll?
    ensures Same(external, db, cl, DoStatement(db, cl, newId, now, clock, external), newId, now, id, later)
  {
    assert RestShape(cl);
    hide Stands, Shape, Linked, Same, Rest;
    if cl.pc.MarkFail? { MarkFailSame(db, cl, external, newId, now, id, later); hide DoStatement; }
    else if cl.pc.Fetch? { FetchSame(db, cl, external, newId, now, id, later); hide DoStatement; }
    else { OneStepSame(db, cl, external, newId, now, clock, id, later); }
  }

  lemma MarkFailSame(db: Db, cl: Client, external: bool, newId: Id, now: nat, id: Id, later: nat)
    requires cl.pc.MarkFail? && cl.w.tid.Some?
    ensures Same(external, db, cl, DoMarkFail(db, cl), newId, now, id, later)
  {
  }

  lemma FetchSame(db: Db, cl: Client, external: bool, newId: Id, now: nat, id: Id, later: nat)
    requires cl.pc.Fetch? && cl.w.tid.Some?
    ensures Same(external, db, cl, DoFetch(db, cl), newId, now, id, later)
  {
  }

  /** Openings, blockings and resets. */
  lemma OneStepSame(db: Db, cl: Client, external: bool, newId: Id, now: nat, clock: nat, id: Id, later: nat)
    requires RestShape(cl)
    requires cl.pc.OpenAcc? || cl.pc.WriteAccStatus? || cl.pc.LockTables? || cl.pc.TruncateAll?
    ensures Same(external, db, cl, DoStatement(db, cl, newId, now, clock, external), newId, now, id, later)
  {
    hide BookReply, SettleReply, FailReply, MutateReply, TransferReply;
    hide DoValidate, DoInsert, DoFind, DoLockRow, DoCountBooked, DoReadAcc, DoLockAcc, DoUpdateAcc, DoAddEntry;
    hide DoWriteRow, DoCommit, Continues;
  }

  /** Every statement. */
  lemma StatementSame(db: Db, cl: Client, external: bool, newId: Id, now: nat, clock: nat, id: Id, later: nat)
    requires Stands(db, cl, external) && !cl.pc.Done?
    ensures Same(external, db, cl, DoStatement(db, cl, newId, now, clock, external), newId, now, id, later)
  {
    ReadsFor(cl, external);
    hide Same, Shape, Linked, Fresh, RowsOk, AccountsOk, EntriesOk, KeysUnique, IdsIssued, BookingsOk, Typed, NextLock;
    hide Stands;
    match cl.pc {
      case Validate => ValidateSame(db, cl, external, newId, now, id, later);
      case Insert => InsertSame(db, cl, external, newId, now, id, later);
      case Find => FindSame(db, cl, external, newId, now, id, later);
      case LockRow => LockRowSame(db, cl, clock, external, newId, now, id, later);
      case CountBooked => CountBookedSame(db, cl, external, newId, now, id, later);
      case ReadAcc(n) =>
        if cl.w.call.CallTransfer? { ReadAccTransferSame(db, cl, n, external, newId, now, id, later); }
        else { ReadAccMutateSame(db, cl, n, external, newId, now, id, later); }
      case LockAcc(n) => LockAccSame(db, cl, n, external, newId, now, id, later);
      case UpdateAcc(n) => UpdateAccSame(db, cl, n, external, newId, now, id, later);
      case AddEntry(n) => AddEntrySame(db, cl, n, external, newId, now, id, later);
      case WriteRow => WriteRowSame(db, cl, external, newId, now, id, later);
      case CommitTx => CommitSame(db, cl, external, newId, now, id, later);
      case _ => SmallSame(db, cl, external, newId, now, clock, id, later);
    }
  }

  lemma ReadsFor(cl: Client, external: bool)
    requires Shape(cl, external) && Typed(cl)
    ensures cl.pc.ReadAcc? ==> cl.w.call.CallTransfer? || cl.w.call.CallMutate?
    ensures cl.pc.Find? || cl.pc.Insert? || cl.pc.Validate? ==> cl.w.call.CallTransfer?
    ensures cl.pc.Find? || cl.pc.Insert? ==> ParamsValid(cl.w.call)
    ensures CallShape(cl)
  {
    hide HeldShape, Counted, Reads;
  }
}
