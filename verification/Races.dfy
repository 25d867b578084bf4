/** Runs that go wrong: what the protocol does not rule out, shown by one run each. */
module Races {
  import opened Common
  import opened Ledger
  import opened Bank
  import BankLaws
  import opened History
  import opened Protocol
  import opened Statements
  import opened Solo
  import opened Settlement
  import opened Locks

  const CALL := CallTransfer(0, 1, 100, "k", 1)

  /** Two open accounts and nothing else. */
  predicate TwoAccounts(s: State) {
    && s.db.accounts == map[0 := Account(0, 0, Active), 1 := Account(0, 0, Active)]
    && s.db.transfers == map[] && s.db.issued == {0, 1} && s.clients.Keys == {0, 1}
  }

  lemma OpensTwo(external: bool) returns (es: seq<Event>, s: State)
    ensures At(external, es, s) && Idle(s) && TwoAccounts(s)
    ensures s.history == [Commit(0, Open(0)), Commit(1, Open(1))]
  {
    var s0 := Init(external);
    assert At(external, [], s0);
    hide At, Idle;
    IdleInit(external);
    es, s := SoloOpen(external, [], s0, 0, 0);
    var s1 := s;
    assert s1.db == Exec(s0.db, Open(0));
    es, s := SoloOpen(external, es, s1, 1, 1);
    assert s.db == Exec(s1.db, Open(1));
    assert s.db.accounts == map[0 := Account(0, 0, Active), 1 := Account(0, 0, Active)];
  }

  lemma IdleInit(external: bool)
    ensures Idle(Init(external))
  {
  }

  /** Client 2 has created transfer 2, found too little money and is about to mark it FAILED. */
  lemma LosesHeart(external: bool) returns (es: seq<Event>, s: State)
    ensures At(external, es, s) && Idle(s) && AboutToFail(s, 2, 2) && s.clients.Keys == {0, 1, 2}
    ensures s.clients[2].w.call == CALL && Known(s.db, CALL, 2) && BothActive(s.db, CALL)
    ensures s.db.accounts == map[0 := Account(0, 0, Active), 1 := Account(0, 0, Active)]
  {
    var s1: State;
    es, s1 := OpensTwo(external);
    hide At, Idle, Exec, RowsOk, Guard, Known, AboutToFail;
    es, s := SoloLacksFunds(external, es, s1, 2, CALL, 2, 0);
    assert s.clients.Keys == {0, 1, 2};
  }

  /** Then client 3 deposits. */
  lemma DepositComesLate(external: bool) returns (es: seq<Event>, s: State)
    ensures At(external, es, s) && Idle(s) && AboutToFail(s, 2, 2) && s.clients.Keys == {0, 1, 2, 3}
    ensures s.clients[2].w.call == CALL
    ensures Known(s.db, CALL, 2) && BothActive(s.db, CALL) && Funded(s.db, CALL)
  {
    var s1: State;
    es, s1 := LosesHeart(external);
    hide At, Idle, Exec, RowsOk, Guard, Known, BothActive, Funded;
    es, s := SoloMutate(external, es, s1, 3, 0, 100, Credit);
    DepositKeeps(s1.db, s.db, 2);
    assert s.clients.Keys == {0, 1, 2, 3};
  }

  lemma DepositKeeps(db: Db, db': Db, t: Id)
    requires RowsOk(db) && Guard(db, Mutate(0, 100)) && db' == Exec(db, Mutate(0, 100)) && Known(db, CALL, t)
    requires db.accounts == map[0 := Account(0, 0, Active), 1 := Account(0, 0, Active)]
    ensures Known(db', CALL, t) && BothActive(db', CALL) && Funded(db', CALL)
  {
    BankLaws.ExecOtherTransfer(db, Mutate(0, 100), t);
  }

  /** Two overlapping Transfer calls with one key and the same parameters, and a deposit between them, leave a booked
      transfer FAILED and not reversed: the first call read too little money, and marks it FAILED after the second
      has booked it. Every other invariant survives, in both settlement modes. */
  lemma OverlappingCallsStrandMoney(external: bool) returns (es: seq<Event>)
    ensures ValidRun(external, es)
    ensures var s := StateAfter(external, es);
            && 2 in s.db.transfers && s.db.transfers[2].status == Failed && |EntriesFor(s.db, 2)| == 2
            && !FailedIsVoid(s.db) && DbInv(s.db)
            && 4 in s.clients && s.clients[4].pc == Done(Accepted(if external then Pending else Settled))
            && 2 in s.clients && s.clients[2].pc == Done(Invalid(true)) && s.clients[2].w.call == s.clients[4].w.call
  {
    var s1, s2: State;
    es, s1 := BooksBehind(external);
    hide Idle, Exec, RowsOk, Guard, DbInv;
    es, s2 := SoloMarkFail(external, es, s1, 2, 2);
    MarkedFailed(s1.db, 2);
    AtRows(external, es, s2);
  }

  /** Client 4 repeats the call of client 2 and books the transfer. */
  lemma BooksBehind(external: bool) returns (es: seq<Event>, s: State)
    ensures At(external, es, s) && Idle(s) && AboutToFail(s, 2, 2) && s.clients[2].w.call == CALL
    ensures 2 in s.db.transfers && |EntriesFor(s.db, 2)| == 2
    ensures 4 in s.clients && s.clients[4].pc == Done(Accepted(if external then Pending else Settled))
            && s.clients[4].w.call == CALL
  {
    var s1: State;
    es, s1 := DepositComesLate(external);
    var op := Book(2, 0, 1, 100, !external);
    hide At, Idle, Known, BothActive, Funded, Exec, RowsOk, Guard;
    es, s := SoloRepeat(external, es, s1, 4, CALL, 2);
    BookEffect(s1.db, op, s.db);
  }

  lemma BookEffect(db: Db, op: Op, db': Db)
    requires RowsOk(db) && Guard(db, op) && op.Book? && db' == Exec(db, op)
    ensures op.tid in db'.transfers && |EntriesFor(db', op.tid)| == 2
  {
    BankLaws.ExecBookEffect(db, op);
  }

  lemma MarkedFailed(db: Db, t: Id)
    requires RowsOk(db) && Guard(db, MarkFailed(t))
    ensures var db' := Exec(db, MarkFailed(t));
            t in db'.transfers && db'.transfers[t].status == Failed && EntriesFor(db', t) == EntriesFor(db, t)
  {
  }

  // ------------------------------------------------------------------------ a deposit and a reset block each other

  /** A deposit that has written the balance and has yet to add its entry. */
  predicate MidDeposit(cl: Client) {
    && cl.w.call == Deposit(0, 100) && cl.pc == AddEntry(0) && cl.held == {Shared(Accounts), AccountRow(0)}
  }

  lemma DepositHalfway(external: bool) returns (es: seq<Event>, s: State)
    ensures At(external, es, s) && s.clients.Keys == {0, 1, 2} && MidDeposit(s.clients[2])
    ensures s.clients[0].held == {} && s.clients[1].held == {}
  {
    var es0, s0 := OpensTwo(external);
    var call := Deposit(0, 100);
    var cl := StartOf(call, |s0.history|);
    Start(external, es0, s0, 2, call);
    MutateReads(s0, 2, cl);
    var cl1 := Armed(s0.db, cl).(w := Read(s0.db, cl.w, 0), pc := UpdateAcc(0));
    ReadBalance(s0.db, cl.w, 0);
    MutateUpdates(s0, 2, cl1);
    var cl2 := Armed(s0.db, cl1).(bal := cl1.bal[0 := NewBalance(cl1.w, 0)], pc := AddEntry(0));
    hide At, Moves;
    es := Follow(external, es0 + [Begin(2, call)], s0, 2, [cl, cl1, cl2]);
    s := Put(s0, 2, cl2);
  }

  /** A reset that holds the first two of its three tables. */
  function HalfReset(clock: nat): Client {
    StartOf(CallReset, clock).(held := {Exclusive(Transfers), Exclusive(Entries)})
  }

  /** A deposit and a reset can wait for each other: the deposit locks accounts before entries, LOCK TABLE entries
      before accounts. Neither can go on, which is the deadlock that the reset's three attempts are there for. */
  lemma DepositAndResetBlockEachOther(external: bool) returns (es: seq<Event>)
    ensures ValidRun(external, es)
    ensures var s := StateAfter(external, es); WaitCycle(s, [2, 3]) && IsMutate(s, 2) && IsReset(s, 3)
  {
    var s: State;
    es, s := ResetHalfway(external);
    BothWait(s, s.clients[3].begun);
    hide WaitCycle, StateAfter, ValidRun, MidDeposit, HalfReset, IsReset, IsMutate;
  }

  lemma ResetHalfway(external: bool) returns (es: seq<Event>, s: State)
    ensures At(external, es, s) && 2 in s.clients && 3 in s.clients
    ensures MidDeposit(s.clients[2]) && s.clients[3] == HalfReset(s.clients[3].begun)
  {
    var es0, s0 := DepositHalfway(external);
    hide At, MidDeposit;
    Start(external, es0, s0, 3, CallReset);
    var es1, s1 := es0 + [Begin(3, CallReset)], Put(s0, 3, StartOf(CallReset, |s0.history|));
    ResetTakes(external, es1, s1, {}, Transfers);
    var s2 := Put(s1, 3, s1.clients[3].(held := {} + {Exclusive(Transfers)}));
    ResetTakes(external, es1 + [Acquire(3)], s2, {Exclusive(Transfers)}, Entries);
    es := es1 + [Acquire(3)] + [Acquire(3)];
    s := Put(s2, 3, s2.clients[3].(held := {Exclusive(Transfers)} + {Exclusive(Entries)}));
    assert {Exclusive(Transfers)} + {Exclusive(Entries)} == {Exclusive(Transfers), Exclusive(Entries)};
  }

  /** What LOCK TABLE takes next, with none, one or two of its tables held. */
  lemma NextTable()
    ensures var needs := [Exclusive(Transfers), Exclusive(Entries), Exclusive(Accounts)];
            && FirstMissing(needs, {}) == Some(Exclusive(Transfers))
            && FirstMissing(needs, {Exclusive(Transfers)}) == Some(Exclusive(Entries))
            && FirstMissing(needs, {Exclusive(Transfers), Exclusive(Entries)}) == Some(Exclusive(Accounts))
  {
    var needs := [Exclusive(Transfers), Exclusive(Entries), Exclusive(Accounts)];
    assert needs[1..] == [Exclusive(Entries), Exclusive(Accounts)] && needs[1..][1..] == [Exclusive(Accounts)];
  }

  /** LOCK TABLE takes its next table although the deposit is halfway through. */
  lemma ResetTakes(external: bool, es: seq<Event>, s: State, held: set<Lock>, table: Table)
    requires At(external, es, s) && s.clients.Keys == {0, 1, 2, 3} && MidDeposit(s.clients[2])
    requires s.clients[0].held == {} && s.clients[1].held == {}
    requires s.clients[3].pc == LockTables && s.clients[3].held == held
    requires (held == {} && table == Transfers) || (held == {Exclusive(Transfers)} && table == Entries)
    ensures At(external, es + [Acquire(3)], Put(s, 3, s.clients[3].(held := held + {Exclusive(table)})))
  {
    hide At, FirstMissing;
    NextTable();
    assert NextLock(s.db, s.clients[3]) == Some(Exclusive(table));
    assert Free(s, 3, Exclusive(table));
    hide NextLock, Free;
    Extend(external, es, s, Acquire(3));
  }

  lemma BothWait(s: State, clock: nat)
    requires 2 in s.clients && 3 in s.clients && MidDeposit(s.clients[2]) && s.clients[3] == HalfReset(clock)
    ensures WaitCycle(s, [2, 3]) && IsMutate(s, 2) && IsReset(s, 3)
  {
    assert NextLock(s.db, s.clients[2]) == Some(Shared(Entries));
    NextTable();
    assert NextLock(s.db, s.clients[3]) == Some(Exclusive(Accounts));
    assert Exclusive(Entries) in s.clients[3].held && Shared(Accounts) in s.clients[2].held;
    assert WaitsFor(s, 2, 3) && WaitsFor(s, 3, 2);
  }

  // ------------------------------------------------------------------------- a deposit on an account just blocked

  /** A deposit that has read account 0 while it was ACTIVE, and nothing since. */
  predicate HasRead(cl: Client) {
    && cl.w.call == Deposit(0, 100) && cl.pc == UpdateAcc(0) && cl.held == {Shared(Accounts)}
    && cl.w.snap == map[0 := Account(0, 0, Active)] && cl.adds == []
  }

  lemma DepositReads(external: bool) returns (es: seq<Event>, s: State)
    ensures At(external, es, s) && s.clients.Keys == {0, 1, 2} && HasRead(s.clients[2])
    ensures s.clients[0].held == {} && s.clients[1].held == {} && 0 in s.db.accounts
            && s.db.accounts[0] == Account(0, 0, Active)
  {
    var es0, s0 := OpensTwo(external);
    var call := Deposit(0, 100);
    var cl := StartOf(call, |s0.history|);
    Start(external, es0, s0, 2, call);
    MutateReads(s0, 2, cl);
    var cl1 := Armed(s0.db, cl).(w := Read(s0.db, cl.w, 0), pc := UpdateAcc(0));
    hide At, Moves;
    es := Follow(external, es0 + [Begin(2, call)], s0, 2, [cl, cl1]);
    s := Put(s0, 2, cl1);
  }

  /** Client 3 blocks the account meanwhile: no lock stands in its way. */
  lemma BlocksBetween(external: bool) returns (es: seq<Event>, s: State)
    ensures At(external, es, s) && s.clients.Keys == {0, 1, 2, 3} && HasRead(s.clients[2]) && Alone(s, 2)
    ensures 0 in s.db.accounts && s.db.accounts[0] == Account(0, 0, Blocked)
    ensures s.history != [] && Last(s.history) == Commit(3, SetStatus(0, Blocked))
  {
    var s0: State;
    es, s0 := DepositReads(external);
    hide At, HasRead;
    var cl0 := StartOf(CallSetStatus(0, Blocked), |s0.history|);
    Start(external, es, s0, 3, cl0.w.call);
    var s1 := Put(s0, 3, cl0);
    BlockerTakes(external, es + [Begin(3, cl0.w.call)], s1, Shared(Accounts));
    var cl1 := cl0.(held := cl0.held + {Shared(Accounts)});
    var s2 := Put(s1, 3, cl1);
    BlockerTakes(external, es + [Begin(3, cl0.w.call)] + [Acquire(3)], s2, AccountRow(0));
    var cl2 := cl1.(held := cl1.held + {AccountRow(0)});
    var s3 := Put(s2, 3, cl2);
    es, s := BlockerRuns(external, es + [Begin(3, cl0.w.call)] + [Acquire(3)] + [Acquire(3)], s3);
  }

  lemma BlockerRuns(external: bool, es: seq<Event>, s: State) returns (es': seq<Event>, s': State)
    requires At(external, es, s) && s.clients.Keys == {0, 1, 2, 3}
    requires 0 in s.db.accounts && s.db.accounts[0] == Account(0, 0, Active)
    requires s.clients[0].held == {} && s.clients[1].held == {}
    requires s.clients[3].pc == WriteAccStatus && s.clients[3].w.call == CallSetStatus(0, Blocked)
    requires s.clients[3].held == {Shared(Accounts), AccountRow(0)}
    ensures At(external, es', s') && s'.clients.Keys == {0, 1, 2, 3} && s'.clients[2] == s.clients[2] && Alone(s', 2)
    ensures 0 in s'.db.accounts && s'.db.accounts[0] == Account(0, 0, Blocked)
    ensures s'.history != [] && Last(s'.history) == Commit(3, SetStatus(0, Blocked))
  {
    hide At, NextLock, Typed;
    var id := UnusedId(s.db.issued);
    BlockerIsReady(s);
    RunStatement(external, es, s, 3, id, 0);
    es' := es + [Do(3, id, 0)];
    s' := Settle(s, 3, DoSetStatus(s.db, s.clients[3]));
  }

  lemma BlockerTakes(external: bool, es: seq<Event>, s: State, l: Lock)
    requires At(external, es, s) && s.clients.Keys == {0, 1, 2, 3} && HasRead(s.clients[2]) && 0 in s.db.accounts
    requires s.clients[0].held == {} && s.clients[1].held == {}
    requires s.clients[3].pc == WriteAccStatus && s.clients[3].w.call == CallSetStatus(0, Blocked)
    requires (s.clients[3].held == {} && l == Shared(Accounts))
             || (s.clients[3].held == {Shared(Accounts)} && l == AccountRow(0))
    ensures At(external, es + [Acquire(3)], Put(s, 3, s.clients[3].(held := s.clients[3].held + {l})))
  {
    hide At;
    NextOfTwo(Shared(Accounts), AccountRow(0));
    hide FirstMissing;
    assert NextLock(s.db, s.clients[3]) == Some(l);
    assert Free(s, 3, l);
    hide NextLock, Free;
    Extend(external, es, s, Acquire(3));
  }

  lemma NextOfTwo(l: Lock, m: Lock)
    requires l != m
    ensures FirstMissing([l, m], {}) == Some(l) && FirstMissing([l, m], {l}) == Some(m)
  {
    assert [l, m][1..] == [m];
  }

  lemma BlockerIsReady(s: State)
    requires 3 in s.clients && 0 in s.db.accounts
    requires s.clients[3].pc == WriteAccStatus && s.clients[3].w.call == CallSetStatus(0, Blocked)
    requires s.clients[3].held == {Shared(Accounts), AccountRow(0)}
    ensures NextLock(s.db, s.clients[3]) == None && Typed(s.clients[3])
  {
    Locks.AllHeld(Needs(s.db, s.clients[3]), s.clients[3].held);
  }

  /** The deposit goes on to the end, on the account that is BLOCKED by now. */
  lemma DepositGoesOn(external: bool, es: seq<Event>, s: State) returns (es': seq<Event>, s': State)
    requires At(external, es, s) && s.clients.Keys == {0, 1, 2, 3} && HasRead(s.clients[2]) && Alone(s, 2)
    requires 0 in s.db.accounts && s.db.accounts[0] == Account(0, 0, Blocked)
    ensures At(external, es', s') && 2 in s'.clients
    ensures s'.clients[2].w.call == Deposit(0, 100) && s'.clients[2].pc == Done(Completed)
    ensures s'.history == s.history + [Commit(2, Mutate(0, 100))]
    ensures 0 in s'.db.accounts && s'.db.accounts[0] == Account(100, 1, Blocked)
  {
    var path := RestOfDeposit(s);
    AtRows(external, es, s);
    hide At, Path, Ends, DbInv, RowsOk, Exec, Guard, Alone, Idle;
    assert path[0].w.call == Deposit(0, 100);
    hide HasRead, Deposit;
    DepositLands(s.db);
    assert Put(s, 2, s.clients[2]) == s;
    es', s' := GoThrough(external, es, s, 2, path, Mutate(0, 100), Completed);
  }

  /** SetStatus does not raise the version, so a deposit that read the account ACTIVE commits on it BLOCKED. */
  lemma BlockedAccountStillMoves(external: bool) returns (es: seq<Event>)
    ensures ValidRun(external, es)
    ensures var s := StateAfter(external, es);
            && 2 in s.clients && s.clients[2].w.call == Deposit(0, 100) && s.clients[2].pc == Done(Completed)
            && |s.history| >= 2 && s.history[|s.history| - 2] == Commit(3, SetStatus(0, Blocked))
            && s.history[|s.history| - 1] == Commit(2, Mutate(0, 100))
            && 0 in s.db.accounts && s.db.accounts[0] == Account(100, 1, Blocked)
  {
    var s, s': State;
    es, s := BlocksBetween(external);
    hide At, Alone, HasRead, Deposit;
    es, s' := DepositGoesOn(external, es, s);
    ReachedBy(external, es, s');
    hide StateAfter, ValidRun;
  }

  lemma ReachedBy(external: bool, es: seq<Event>, s: State)
    requires At(external, es, s)
    ensures ValidRun(external, es) && StateAfter(external, es) == s
  {
  }

  lemma DepositLands(db: Db)
    requires RowsOk(db) && 0 in db.accounts && db.accounts[0] == Account(0, 0, Blocked)
    ensures Guard(db, Mutate(0, 100))
    ensures var db' := Exec(db, Mutate(0, 100)); 0 in db'.accounts && db'.accounts[0] == Account(100, 1, Blocked)
  {
    hide RowsOk;
  }

  lemma RestOfDeposit(s: State) returns (path: seq<Client>)
    requires 2 in s.clients && HasRead(s.clients[2]) && 0 in s.db.accounts && s.db.accounts[0] == Account(0, 0, Blocked)
    ensures path != [] && path[0] == s.clients[2] && Path(s, 2, path)
            && Ends(s, path[|path| - 1], Mutate(0, 100), Completed)
  {
    hide Moves, Armed, NewEntry, Ends;
    var cl := s.clients[2];
    MutateUpdates(s, 2, cl);
    var cl1 := Armed(s.db, cl).(bal := cl.bal[0 := NewBalance(cl.w, 0)], pc := AddEntry(0));
    MutateAdds(s, 2, cl1);
    var cl2 := Armed(s.db, cl1).(adds := cl1.adds + [NewEntry(cl1.w, 0)], pc := CommitTx);
    MutateCommit(s, cl2);
    path := [cl, cl1, cl2];
  }
}
