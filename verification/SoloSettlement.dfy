/** Settlement and failure of a booked transfer when no other call is in the middle of a transaction, and what a
    failure undoes. */
module SoloSettlement {
  import opened Common
  import opened Ledger
  import opened Bank
  import BankLaws
  import opened Protocol
  import opened Statements
  import opened Solo

  /** The statement of cl commits op and goes on to fetch the transfer. */
  ghost predicate EndsInFetch(s: State, cl: Client, op: Op) {
    Typed(cl) && !cl.pc.Done? && forall newId ::
      var out := DoStatement(s.db, Armed(s.db, cl), newId, 0, |s.history|, s.external);
      out.log == Some(op) && out.cl == EndTx(Armed(s.db, cl), Fetch)
  }

  lemma Fetches(s: State, c: nat, cl: Client)
    requires cl.pc == Fetch && (cl.w.call.CallSettle? || cl.w.call.CallFail?) && cl.w.tid.Some?
             && cl.w.tid.value in s.db.transfers
    ensures Moves(s, c, cl, EndTx(Armed(s.db, cl), Done(Completed)))
  {
    hide Armed, DoInsert, DoFind, DoLockRow, DoCountBooked, DoLockAcc, DoReadAcc, DoUpdateAcc, DoCommit;
  }

  lemma GoThroughAndFetch(external: bool, es: seq<Event>, s: State, c: nat, path: seq<Client>, op: Op, t: Id)
    returns (es': seq<Event>, s': State)
    requires path != [] && Path(s, c, path) && At(external, es, Put(s, c, path[0])) && Alone(s, c)
    requires RowsOk(s.db) && Guard(s.db, op) && EndsInFetch(s, path[|path| - 1], op)
    requires path[|path| - 1].w.tid == Some(t) && t in Exec(s.db, op).transfers
    requires path[|path| - 1].w.call.CallSettle? || path[|path| - 1].w.call.CallFail?
    ensures es <= es' && At(external, es', s') && Idle(s') && After(s, c, op, Completed, s')
  {
    hide At, Path, Exec, Guard, DoStatement, Typed, Armed, RowsOk, Moves;
    var cl := path[|path| - 1];
    es' := Follow(external, es, s, c, path);
    var id := UnusedId(s.db.issued);
    var cl1 := EndTx(Armed(s.db, cl), Fetch);
    es' := MoveAndCommit(external, es', s, c, cl, id, 0, op, cl1);
    es', s' := FetchAfter(external, es', s, c, cl1, op);
  }

  lemma FetchAfter(external: bool, es: seq<Event>, s: State, c: nat, cl: Client, op: Op)
    returns (es': seq<Event>, s': State)
    requires Alone(s, c) && RowsOk(s.db) && Guard(s.db, op) && At(external, es, Committed(s, c, op, cl))
    requires cl.pc == Fetch && (cl.w.call.CallSettle? || cl.w.call.CallFail?)
    requires cl.w.tid.Some? && cl.w.tid.value in Exec(s.db, op).transfers
    ensures es <= es' && At(external, es', s') && Idle(s') && After(s, c, op, Completed, s')
  {
    hide At, Exec, Guard, Armed, RowsOk, Moves;
    var s1 := Committed(s, c, op, cl);
    var cl' := EndTx(Armed(s1.db, cl), Done(Completed));
    Fetches(s1, c, cl);
    assert Put(s1, c, cl) == s1;
    es' := Move(external, es, s1, c, cl, cl');
    s' := Committed(s, c, op, cl');
    assert Put(s1, c, cl') == s';
    ComesAfter(s, c, op, cl', Completed);
  }

  /** Transfer t is booked and waits for its settlement. */
  predicate Awaits(db: Db, t: Id) { t in db.transfers && db.transfers[t].status == Pending && Booked(db, t) }

  lemma RowLocks(s: State, c: nat, cl: Client, t: Id)
    requires cl.pc == LockRow && (cl.w.call.CallSettle? || cl.w.call.CallFail?) && cl.w.tid == Some(t)
             && Awaits(s.db, t)
    ensures Moves(s, c, cl, Armed(s.db, cl).(w := cl.w.(row := Some(s.db.transfers[t])), epoch := |s.history|,
                                             pc := CountBooked))
  {
    hide Armed, Booked, DoInsert, DoFind, DoCountBooked, DoLockAcc, DoUpdateAcc, DoReadAcc, DoCommit;
  }

  lemma RowCounts(s: State, c: nat, cl: Client, t: Id)
    requires cl.pc == CountBooked && (cl.w.call.CallSettle? || cl.w.call.CallFail?) && cl.w.tid == Some(t)
             && Awaits(s.db, t)
    ensures Moves(s, c, cl, Armed(s.db, cl).(w := cl.w.(count := Some(|EntriesFor(s.db, t)|)),
                                              pc := if cl.w.call.CallSettle? then WriteRow else LockAcc(0)))
  {
    hide Armed, Select, DoInsert, DoFind, DoLockRow, DoLockAcc, DoUpdateAcc, DoReadAcc, DoCommit;
  }

  lemma RowWrites(s: State, c: nat, cl: Client)
    requires cl.pc == WriteRow
    ensures Moves(s, c, cl, Armed(s.db, cl).(write := RowWriteOf(cl, 0), pc := CommitTx))
  {
    hide DoInsert, DoFind, DoLockRow, DoCountBooked, DoLockAcc, DoReadAcc, DoUpdateAcc, DoCommit;
  }

  lemma RowEnds(s: State, cl: Client, op: Op)
    requires cl.pc == CommitTx && (cl.w.call.CallSettle? || cl.w.call.CallFail?) && CommittedOp(cl) == Some(op)
    ensures EndsInFetch(s, cl, op)
  {
    CommitsTheSame(cl, Armed(s.db, cl));
    hide Armed, CommittedOp, DoInsert, DoFind, DoLockRow, DoCountBooked, DoLockAcc, DoReadAcc, DoUpdateAcc, Publish;
  }

  lemma CommitsTheSame(cl: Client, cl': Client)
    requires cl' == cl.(held := cl'.held)
    ensures CommittedOp(cl') == CommittedOp(cl)
  {
  }

  lemma PathToSettlement(s: State, c: nat, cl: Client, t: Id, ref: string) returns (path: seq<Client>)
    requires cl.pc == LockRow && cl.w.call == CallSettle(t, ref) && cl.w.tid == Some(t) && Awaits(s.db, t)
    ensures |path| == 4 && path[0] == cl && Path(s, c, path)
    ensures EndsInFetch(s, path[3], Confirm(t, 0, RefArg(ref))) && path[3].w.call == cl.w.call
            && path[3].w.tid == Some(t)
  {
    hide Moves, Armed, Booked, EndsInFetch;
    RowLocks(s, c, cl, t);
    var cl1 := Armed(s.db, cl).(w := cl.w.(row := Some(s.db.transfers[t])), epoch := |s.history|, pc := CountBooked);
    RowCounts(s, c, cl1, t);
    var cl2 := Armed(s.db, cl1).(w := cl1.w.(count := Some(|EntriesFor(s.db, t)|)), pc := WriteRow);
    RowWrites(s, c, cl2);
    var cl3 := Armed(s.db, cl2).(write := RowWriteOf(cl2, 0), pc := CommitTx);
    RowEnds(s, cl3, Confirm(t, 0, RefArg(ref)));
    path := [cl, cl1, cl2, cl3];
  }

  /** Settle on a booked PENDING transfer settles it, with its reference. */
  lemma SoloSettle(external: bool, es: seq<Event>, s: State, c: nat, t: Id, ref: string)
    returns (es': seq<Event>, s': State)
    requires At(external, es, s) && c !in s.clients && Idle(s) && Awaits(s.db, t)
    ensures es <= es' && At(external, es', s') && Idle(s') && After(s, c, Confirm(t, 0, RefArg(ref)), Completed, s')
    ensures t in s'.db.transfers && s'.db.transfers[t].status == Settled && s'.db.transfers[t].settledAt.Some?
    ensures ref != "" ==> s'.db.transfers[t].ref == Some(ref)
    ensures ref == "" ==> s'.db.transfers[t].ref == None
  {
    hide RefArg, At, Path, DbInv, RowsOk, Exec, Guard, After, EndsInFetch, Awaits, Idle;
    AtRows(external, es, s);
    var cl := StartOf(CallSettle(t, ref), |s.history|);
    Start(external, es, s, c, cl.w.call);
    assert Alone(s, c) by { IdleIsAlone(s, c); }
    SettleGuard(s.db, t, ref);
    var path := PathToSettlement(s, c, cl, t, ref);
    es', s' := GoThroughAndFetch(external, es + [Begin(c, cl.w.call)], s, c, path, Confirm(t, 0, RefArg(ref)), t);
    ConfirmedRow(s, c, t, ref, s');
  }

  /** What a confirmed row says. */
  lemma ConfirmedRow(s: State, c: nat, t: Id, ref: string, s': State)
    requires After(s, c, Confirm(t, 0, RefArg(ref)), Completed, s')
    ensures t in s'.db.transfers
    ensures var row := s'.db.transfers[t];
            && row.status == Settled && row.settledAt.Some?
            && (ref != "" ==> row.ref == Some(ref)) && (ref == "" ==> row.ref == None)
  {
    hide RowsOk, Booked;
  }

  lemma SettleGuard(db: Db, t: Id, ref: string)
    requires RowsOk(db) && Awaits(db, t)
    ensures Guard(db, Confirm(t, 0, RefArg(ref))) && t in Exec(db, Confirm(t, 0, RefArg(ref))).transfers
  {
    hide RowsOk, Booked;
  }

  /** The transfer can be reversed: it awaits its settlement, and its destination can pay it back. */
  predicate Reversible(db: Db, t: Id) {
    && Awaits(db, t)
    && var row := db.transfers[t];
       row.from != row.to && ValidAmount(row.amount)
       && row.from in db.accounts && row.to in db.accounts
       && 0 <= db.accounts[row.from].balance && db.accounts[row.from].balance + row.amount <= MAX_INT64
       && row.amount <= db.accounts[row.to].balance <= MAX_INT64
  }

  /** The call has locked and counted, and works on the row of t. */
  predicate Reversing(db: Db, cl: Client, t: Id) {
    cl.w.call == CallFail(t) && cl.w.tid == Some(t) && Reversible(db, t) && cl.w.row == Some(db.transfers[t])
  }

  lemma FailLocks(s: State, c: nat, cl: Client, t: Id)
    requires cl.pc == LockAcc(0) && Reversing(s.db, cl, t)
    ensures Moves(s, c, cl, Armed(s.db, cl).(w := Read(s.db, cl.w, ReadAt(cl.w, 0)), pc := LockAcc(1)))
  {
    hide Armed, Booked, DoInsert, DoFind, DoLockRow, DoCountBooked, DoReadAcc, DoUpdateAcc, DoCommit;
  }

  /** Both accounts of the row are read as they are. */
  predicate BothRead(db: Db, w: Work, t: Id) {
    && w.call == CallFail(t) && w.tid == Some(t) && Reversible(db, t) && w.row == Some(db.transfers[t])
    && w.snap.Keys == {From(w), To(w)} && forall a :: a in w.snap ==> a in db.accounts && w.snap[a] == db.accounts[a]
  }

  lemma FailLocksAgain(s: State, c: nat, cl: Client, t: Id, w: Work)
    requires cl.pc == LockAcc(1) && Reversing(s.db, cl, t) && w.snap == map[] && w.call == cl.w.call
             && w.row == cl.w.row
    requires cl.w == Read(s.db, w, ReadAt(w, 0))
    ensures var w' := Read(s.db, cl.w, ReadAt(cl.w, 1));
            BothRead(s.db, w', t) && Moves(s, c, cl, Armed(s.db, cl).(w := w', pc := UpdateAcc(0)))
  {
    hide Armed, Booked, DoInsert, DoFind, DoLockRow, DoCountBooked, DoReadAcc, DoUpdateAcc, DoCommit;
  }

  lemma FailUpdates(s: State, c: nat, cl: Client, t: Id, n: nat)
    requires cl.pc == UpdateAcc(n) && n < 2 && BothRead(s.db, cl.w, t)
    ensures var a := UpdateAt(cl.w, n);
            Moves(s, c, cl, Armed(s.db, cl).(bal := cl.bal[a := NewBalance(cl.w, a)],
                                             pc := if n == 0 then UpdateAcc(1) else AddEntry(0)))
  {
    FailBalances(s.db, cl.w, t);
    hide Armed, NewBalance, Booked, DoInsert, DoFind, DoLockRow, DoCountBooked, DoLockAcc, DoReadAcc, DoCommit;
  }

  lemma FailBalances(db: Db, w: Work, t: Id)
    requires BothRead(db, w, t)
    ensures 0 <= NewBalance(w, From(w)) && 0 <= NewBalance(w, To(w))
  {
    hide Booked;
  }

  lemma FailAdds(s: State, c: nat, cl: Client, n: nat)
    requires cl.pc == AddEntry(n) && n < 2 && cl.w.call.CallFail?
    ensures Moves(s, c, cl, Armed(s.db, cl).(adds := cl.adds + [NewEntry(cl.w, n)],
                                             pc := if n == 0 then AddEntry(1) else WriteRow))
  {
    hide Armed, NewEntry, DoInsert, DoFind, DoLockRow, DoCountBooked, DoLockAcc, DoReadAcc, DoUpdateAcc, DoCommit;
  }

  /** The way of a reversal to its second account. */
  lemma PathToFirst(s: State, c: nat, cl: Client, t: Id) returns (path: seq<Client>)
    requires cl == StartOf(CallFail(t), cl.begun) && Reversible(s.db, t)
    ensures |path| == 4 && path[0] == cl && Path(s, c, path)
    ensures HasFirst(s.db, path[3], t)
  {
    hide Moves, Armed, Booked;
    RowLocks(s, c, cl, t);
    var cl1 := Armed(s.db, cl).(w := cl.w.(row := Some(s.db.transfers[t])), epoch := |s.history|, pc := CountBooked);
    RowCounts(s, c, cl1, t);
    var cl2 := Armed(s.db, cl1).(w := cl1.w.(count := Some(|EntriesFor(s.db, t)|)), pc := LockAcc(0));
    FailLocks(s, c, cl2, t);
    var cl3 := Armed(s.db, cl2).(w := Read(s.db, cl2.w, ReadAt(cl2.w, 0)), pc := LockAcc(1));
    path := [cl, cl1, cl2, cl3];
    LocksOfFirst(s.db, cl, cl1, cl2, cl3, t);
  }

  /** What a reversal holds before its second account. */
  predicate HasFirst(db: Db, cl: Client, t: Id) {
    && cl.w.call == CallFail(t) && cl.pc == LockAcc(1) && t in db.transfers && cl.w.row == Some(db.transfers[t])
    && var first := ReadAt(cl.w, 0);
       cl.held == {Shared(Transfers), TransferRow(t), Shared(Entries), Shared(Accounts), AccountRow(first),
                   AccountKey(first)}
  }

  lemma LocksOfFirst(db: Db, cl: Client, cl1: Client, cl2: Client, cl3: Client, t: Id)
    requires cl.pc == LockRow && cl.w.tid == Some(t) && t in db.transfers && cl.held == {} && cl.w.call == CallFail(t)
    requires cl1.pc == CountBooked && cl1.held == Armed(db, cl).held
    requires cl2.pc == LockAcc(0) && cl2.held == Armed(db, cl1).held && ReadAt(cl2.w, 0) in db.accounts
    requires cl3.pc == LockAcc(1) && cl3.held == Armed(db, cl2).held && cl3.w == Read(db, cl2.w, ReadAt(cl2.w, 0))
    requires cl2.w.call == cl.w.call && cl2.w.row == Some(db.transfers[t])
    ensures HasFirst(db, cl3, t)
  {
    assert Needs(db, cl) == [Shared(Transfers), TransferRow(t)];
    assert LocksOf(Needs(db, cl)) == {Shared(Transfers), TransferRow(t)};
    assert LocksOf(Needs(db, cl1)) == {Shared(Entries)};
    var first := ReadAt(cl2.w, 0);
    assert Needs(db, cl2) == [Shared(Accounts), AccountRow(first), AccountKey(first)];
    assert LocksOf(Needs(db, cl2)) == {Shared(Accounts), AccountRow(first), AccountKey(first)};
    assert ReadAt(cl3.w, 0) == first;
  }

  lemma PathToLocked(s: State, c: nat, cl: Client, t: Id) returns (path: seq<Client>)
    requires cl == StartOf(CallFail(t), cl.begun) && Reversible(s.db, t)
    ensures |path| == 5 && path[0] == cl && Path(s, c, path)
    ensures path[4].pc == UpdateAcc(0) && BothRead(s.db, path[4].w, t) && path[4].bal == map[] && path[4].adds == []
            && path[4].write == NoWrite
  {
    hide Moves, Armed, Booked;
    RowLocks(s, c, cl, t);
    var cl1 := Armed(s.db, cl).(w := cl.w.(row := Some(s.db.transfers[t])), epoch := |s.history|, pc := CountBooked);
    RowCounts(s, c, cl1, t);
    var cl2 := Armed(s.db, cl1).(w := cl1.w.(count := Some(|EntriesFor(s.db, t)|)), pc := LockAcc(0));
    FailLocks(s, c, cl2, t);
    var cl3 := Armed(s.db, cl2).(w := Read(s.db, cl2.w, ReadAt(cl2.w, 0)), pc := LockAcc(1));
    FailLocksAgain(s, c, cl3, t, cl2.w);
    path := [cl, cl1, cl2, cl3, Armed(s.db, cl3).(w := Read(s.db, cl3.w, ReadAt(cl3.w, 1)), pc := UpdateAcc(0))];
  }

  lemma PathOfPostings(s: State, c: nat, cl: Client, t: Id) returns (path: seq<Client>)
    requires cl.pc == UpdateAcc(0) && BothRead(s.db, cl.w, t) && cl.adds == [] && cl.write == NoWrite
    ensures |path| == 6 && path[0] == cl && Path(s, c, path)
    ensures var row := s.db.transfers[t];
            path[5].w == cl.w && EndsInFetch(s, path[5], Reverse(t, row.from, row.to, row.amount))
  {
    hide Moves, Armed, NewBalance, UpdateAt, EndsInFetch, Booked;
    FailUpdates(s, c, cl, t, 0);
    var cl1 := Armed(s.db, cl).(bal := cl.bal[UpdateAt(cl.w, 0) := NewBalance(cl.w, UpdateAt(cl.w, 0))],
                                pc := UpdateAcc(1));
    FailUpdates(s, c, cl1, t, 1);
    var cl2 := Armed(s.db, cl1).(bal := cl1.bal[UpdateAt(cl.w, 1) := NewBalance(cl.w, UpdateAt(cl.w, 1))],
                                 pc := AddEntry(0));
    var rest := PathOfEntries(s, c, cl2, t);
    path := [cl, cl1] + rest;
  }

  lemma PathOfEntries(s: State, c: nat, cl: Client, t: Id) returns (path: seq<Client>)
    requires cl.pc == AddEntry(0) && BothRead(s.db, cl.w, t) && cl.adds == [] && cl.write == NoWrite
    ensures |path| == 4 && path[0] == cl && Path(s, c, path)
    ensures var row := s.db.transfers[t];
            path[3].w == cl.w && EndsInFetch(s, path[3], Reverse(t, row.from, row.to, row.amount))
  {
    hide Moves, Armed, NewEntry, EndsInFetch, Booked;
    FailAdds(s, c, cl, 0);
    var cl1 := Armed(s.db, cl).(adds := cl.adds + [NewEntry(cl.w, 0)], pc := AddEntry(1));
    FailAdds(s, c, cl1, 1);
    var cl2 := Armed(s.db, cl1).(adds := cl1.adds + [NewEntry(cl1.w, 1)], pc := WriteRow);
    RowWrites(s, c, cl2);
    var cl3 := Armed(s.db, cl2).(write := RowWriteOf(cl2, 0), pc := CommitTx);
    var row := s.db.transfers[t];
    RowEnds(s, cl3, Reverse(t, row.from, row.to, row.amount));
    path := [cl, cl1, cl2, cl3];
  }

  /** Fail on a booked PENDING transfer whose destination can pay it back reverses it. */
  lemma SoloFail(external: bool, es: seq<Event>, s: State, c: nat, t: Id) returns (es': seq<Event>, s': State)
    requires At(external, es, s) && c !in s.clients && Idle(s) && Reversible(s.db, t)
    ensures es <= es' && At(external, es', s') && Idle(s')
    ensures var row := s.db.transfers[t]; After(s, c, Reverse(t, row.from, row.to, row.amount), Completed, s')
  {
    AtRows(external, es, s);
    hide At, Path, DbInv, RowsOk, Exec, Guard, After, EndsInFetch, Reversible, Awaits;
    var cl := StartOf(CallFail(t), |s.history|);
    Start(external, es, s, c, cl.w.call);
    FailGuard(s.db, t);
    var path := WholeFail(s, c, cl, t);
    var row := s.db.transfers[t];
    es', s' := GoThroughAndFetch(external, es + [Begin(c, cl.w.call)], s, c, path,
                                 Reverse(t, row.from, row.to, row.amount), t);
  }

  lemma FailGuard(db: Db, t: Id)
    requires RowsOk(db) && Reversible(db, t)
    ensures t in db.transfers
    ensures var row := db.transfers[t];
            var op := Reverse(t, row.from, row.to, row.amount);
            Guard(db, op) && t in Exec(db, op).transfers
  {
    hide RowsOk, Booked;
  }

  lemma WholeFail(s: State, c: nat, cl: Client, t: Id) returns (path: seq<Client>)
    requires cl == StartOf(CallFail(t), cl.begun) && Reversible(s.db, t)
    ensures path != [] && path[0] == cl && Path(s, c, path)
    ensures var row, end := s.db.transfers[t], path[|path| - 1];
            end.w.tid == Some(t) && end.w.call == cl.w.call
            && EndsInFetch(s, end, Reverse(t, row.from, row.to, row.amount))
  {
    hide Path, EndsInFetch, Reversible;
    var p := PathToLocked(s, c, cl, t);
    var q := PathOfPostings(s, c, p[4], t);
    PathJoins(s, c, p, q);
    path := p[..|p| - 1] + q;
    assert path[|path| - 1] == q[5] && path[0] == cl;
  }

  /** A reversal undoes the booking: every balance is what it was before, and only versions and the log remember. */
  lemma ReverseUndoesBook(db: Db, t: Id, from: Id, to: Id, amount: int)
    requires DbInv(db) && Guard(db, Book(t, from, to, amount, false))
    ensures var booked := Exec(db, Book(t, from, to, amount, false));
            && RowsOk(booked) && Guard(booked, Reverse(t, from, to, amount))
            && var undone := Exec(booked, Reverse(t, from, to, amount));
               undone.accounts.Keys == db.accounts.Keys
               && (forall a :: a in db.accounts ==>
                     undone.accounts[a] == db.accounts[a].(version := undone.accounts[a].version))
               && undone.transfers == db.transfers[t := db.transfers[t].(status := Failed)]
               && |EntriesFor(undone, t)| == 4
  {
    var book, back := Book(t, from, to, amount, false), Reverse(t, from, to, amount);
    var booked := Exec(db, book);
    BookedCanReverse(db, t, from, to, amount);
    BankLaws.ExecKeepsDbInv(db, book);
    BankLaws.ExecReverseEffect(booked, back);
    BankLaws.ExecBookEffect(db, book);
    BalancesComeBack(db, booked, t, from, to, amount);
    hide DbInv, Guard, Exec, Select;
  }

  lemma BalancesComeBack(db: Db, booked: Db, t: Id, from: Id, to: Id, amount: int)
    requires RowsOk(db) && Guard(db, Book(t, from, to, amount, false))
    requires booked == Exec(db, Book(t, from, to, amount, false))
    requires RowsOk(booked) && Guard(booked, Reverse(t, from, to, amount)) && from != to
    ensures var undone := Exec(booked, Reverse(t, from, to, amount));
            undone.accounts.Keys == db.accounts.Keys
            && forall a :: a in db.accounts ==>
                 undone.accounts[a] == db.accounts[a].(version := undone.accounts[a].version)
  {
    hide RowsOk, Booked;
  }

  lemma BookedCanReverse(db: Db, t: Id, from: Id, to: Id, amount: int)
    requires DbInv(db) && Guard(db, Book(t, from, to, amount, false))
    ensures from != to && RowsOk(Exec(db, Book(t, from, to, amount, false)))
    ensures Guard(Exec(db, Book(t, from, to, amount, false)), Reverse(t, from, to, amount))
  {
    var book := Book(t, from, to, amount, false);
    BankLaws.ExecBookEffect(db, book);
    BankLaws.ExecKeepsRows(db, book);
    assert AccountOk(db, from) && AccountOk(db, to) && RowOk(db, t);
    hide RowsOk, AccountsOk, EntriesOk, BookingsOk, KeysUnique, IdsIssued, Select;
  }
}
