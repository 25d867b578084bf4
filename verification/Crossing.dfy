/** A Transfer and a Fail on the same two accounts can wait for each other: the reversal locks accounts by identifier,
    the foreign keys of an INSERT from before to. */
module Crossing {
  import opened Common
  import opened Ledger
  import opened Bank
  import opened History
  import BankLaws
  import opened Protocol
  import opened Solo
  import opened SoloSettlement
  import opened Locks
  import Races

  lemma Takes(external: bool, es: seq<Event>, s: State, c: nat, l: Lock)
    requires At(external, es, s) && c in s.clients && NextLock(s.db, s.clients[c]) == Some(l) && Free(s, c, l)
    ensures At(external, es + [Acquire(c)], Put(s, c, s.clients[c].(held := s.clients[c].held + {l})))
  {
    hide At, NextLock, Free;
    Extend(external, es, s, Acquire(c));
  }

  /** Everybody else is at rest. */
  predicate OnlyTwo(s: State, d: nat, e: nat) {
    forall c :: c in s.clients && c != d && c != e ==> s.clients[c].held == {}
  }

  /** Client d is about to insert a transfer, and has taken the first n of the four locks. */
  predicate Inserting(s: State, d: nat, call: Call, n: nat)
    requires n <= 4
  {
    && d in s.clients && call.CallTransfer? && s.clients[d].w.call == call && s.clients[d].pc == Insert
    && s.clients[d].held == LocksOf(FullInsert(s.clients[d])[..n])
    && !KeyTaken(s.db, call.key) && call.from in s.db.accounts && call.to in s.db.accounts && call.from != call.to
  }

  lemma {:induction false} FirstMissingAt(needs: seq<Lock>, held: set<Lock>, n: nat)
    requires n < |needs| && needs[n] !in held && forall i :: 0 <= i < n ==> needs[i] in held
    ensures FirstMissing(needs, held) == Some(needs[n])
  {
    if n > 0 {
      assert needs[0] in held;
      FirstMissingAt(needs[1..], held, n - 1);
    }
  }

  lemma NextOfInsert(s: State, d: nat, call: Call, n: nat)
    requires n < 4 && Inserting(s, d, call, n)
    ensures NextLock(s.db, s.clients[d]) == Some(FullInsert(s.clients[d])[n])
  {
    hide KeyTaken;
    var needs, held := FullInsert(s.clients[d]), s.clients[d].held;
    assert Needs(s.db, s.clients[d]) == needs;
    hide Needs;
    forall i | 0 <= i < n ensures needs[i] in held {
      assert needs[i] == needs[..n][i];
    }
    assert needs[n] !in held;
    FirstMissingAt(needs, held, n);
  }

  /** Client e, which fails transfer t, stands before its second account. */
  predicate Halfway(s: State, e: nat, t: Id, call: Call) {
    && e in s.clients && HasFirst(s.db, s.clients[e], t) && call.CallTransfer? && call.to < call.from
    && ReadAt(s.clients[e].w, 0) == call.to && ReadAt(s.clients[e].w, 1) == call.from
  }

  /** The reversal does not keep the INSERT from its first three locks. */
  lemma InsertTakes(external: bool, es: seq<Event>, s: State, d: nat, e: nat, t: Id, call: Call, n: nat)
    returns (s': State)
    requires At(external, es, s) && n < 3 && Inserting(s, d, call, n) && Halfway(s, e, t, call) && d != e
             && OnlyTwo(s, d, e)
    ensures At(external, es + [Acquire(d)], s') && s'.db == s.db && s'.clients.Keys == s.clients.Keys
    ensures Inserting(s', d, call, n + 1) && Halfway(s', e, t, call) && OnlyTwo(s', d, e)
  {
    hide At, KeyTaken, ReadAt;
    var l := FullInsert(s.clients[d])[n];
    NextOfInsert(s, d, call, n);
    assert Free(s, d, l);
    hide NextLock, Free;
    Takes(external, es, s, d, l);
    s' := Put(s, d, s.clients[d].(held := s.clients[d].held + {l}));
    assert FullInsert(s.clients[d])[..n + 1] == FullInsert(s.clients[d])[..n] + [l];
    assert LocksOf(FullInsert(s.clients[d])[..n + 1]) == LocksOf(FullInsert(s.clients[d])[..n]) + {l};
  }

  /** The reversal locks the row of its second account, but not its key. */
  predicate HasSecond(s: State, e: nat, t: Id, call: Call) {
    && e in s.clients && call.CallTransfer? && s.clients[e].w.call == CallFail(t) && s.clients[e].pc == LockAcc(1)
    && ReadAt(s.clients[e].w, 1) == call.from && call.from in s.db.accounts
    && {Shared(Accounts), AccountKey(call.to), AccountRow(call.from)} <= s.clients[e].held
    && AccountKey(call.from) !in s.clients[e].held
  }

  lemma ThreeLocks(cl: Client, call: Call)
    requires cl.w.call == call && call.CallTransfer?
    ensures LocksOf(FullInsert(cl)[..3]) == {Shared(Transfers), Shared(Accounts), SharedKey(call.from)}
  {
    assert FullInsert(cl)[..3] == [Shared(Transfers), Shared(Accounts), SharedKey(call.from)];
  }

  lemma ReversalTakes(external: bool, es: seq<Event>, s: State, d: nat, e: nat, t: Id, call: Call)
    returns (s': State)
    requires At(external, es, s) && Inserting(s, d, call, 3) && Halfway(s, e, t, call) && d != e && OnlyTwo(s, d, e)
    ensures At(external, es + [Acquire(e)], s') && s'.db == s.db && s'.clients.Keys == s.clients.Keys
    ensures Inserting(s', d, call, 3) && HasSecond(s', e, t, call)
  {
    hide At, KeyTaken;
    var cl, l := s.clients[e], AccountRow(call.from);
    var needs := Needs(s.db, cl);
    assert needs == [Shared(Accounts), AccountRow(call.from), AccountKey(call.from)];
    FirstMissingAt(needs, cl.held, 1);
    hide ReadAt, Needs, FirstMissing;
    ThreeLocks(s.clients[d], call);
    assert Free(s, e, l);
    hide Free;
    Takes(external, es, s, e, l);
    s' := Put(s, e, cl.(held := cl.held + {l}));
  }

  lemma TheyWait(s: State, d: nat, e: nat, t: Id, call: Call)
    requires Inserting(s, d, call, 3) && HasSecond(s, e, t, call) && d != e
    ensures WaitCycle(s, [d, e])
  {
    hide KeyTaken;
    var cl := s.clients[e];
    NextOfInsert(s, d, call, 3);
    assert Needs(s.db, cl) == [Shared(Accounts), AccountRow(call.from), AccountKey(call.from)];
    FirstMissingAt(Needs(s.db, cl), cl.held, 2);
    hide ReadAt, Needs, FirstMissing;
    ThreeLocks(s.clients[d], call);
    assert Conflict(SharedKey(call.to), AccountKey(call.to)) && Conflict(AccountKey(call.from), SharedKey(call.from));
    assert WaitsFor(s, d, e) && WaitsFor(s, e, d);
    assert Following(2, 0) == 1 && Following(2, 1) == 0;
  }

  // -------------------------------------------------------------------------------------------- the whole run

  /** A transfer that goes the other way between the accounts of transfer t, or the same way, but down. */
  predicate GoesAgainst(db: Db, t: Id, call: Call) {
    && t in db.transfers && call.CallTransfer? && call.to < call.from
    && {call.from, call.to} == {db.transfers[t].from, db.transfers[t].to}
  }

  lemma FailsHalfway(external: bool, es: seq<Event>, s: State, d: nat, e: nat, t: Id, call: Call)
    returns (es': seq<Event>, s': State)
    requires At(external, es, s) && Idle(s) && Reversible(s.db, t) && GoesAgainst(s.db, t, call) && e !in s.clients
    ensures es <= es' && At(external, es', s') && Halfway(s', e, t, call) && s'.db == s.db && s'.history == s.history
    ensures s'.clients.Keys == s.clients.Keys + {e} && OnlyTwo(s', d, e)
  {
    hide At, Path, Reversible, HasFirst;
    var cl := StartOf(CallFail(t), |s.history|);
    Start(external, es, s, e, cl.w.call);
    var path := PathToFirst(s, e, cl, t);
    es' := Follow(external, es + [Begin(e, cl.w.call)], s, e, path);
    s' := Put(s, e, path[3]);
    OrderOfBoth(s.db, path[3], t, call);
  }

  lemma OrderOfBoth(db: Db, cl: Client, t: Id, call: Call)
    requires HasFirst(db, cl, t) && GoesAgainst(db, t, call)
    ensures ReadAt(cl.w, 0) == call.to && ReadAt(cl.w, 1) == call.from
  {
    var row := db.transfers[t];
    assert row.from in {call.from, call.to} && row.to in {call.from, call.to};
    assert call.from in {row.from, row.to} && call.to in {row.from, row.to};
  }

  /** The Transfer passes its checks, which need no lock. */
  lemma ComesToInsert(external: bool, es: seq<Event>, s: State, d: nat, e: nat, t: Id, call: Call)
    returns (es': seq<Event>, s': State)
    requires At(external, es, s) && OnlyTwo(s, d, e) && Halfway(s, e, t, call) && d !in s.clients
    requires CallOk(call) && ParamsValid(call) && !KeyTaken(s.db, call.key) && call.from in s.db.accounts
             && call.to in s.db.accounts
    ensures es <= es' && At(external, es', s') && s'.db == s.db && s'.clients.Keys == s.clients.Keys + {d}
    ensures Inserting(s', d, call, 0) && Halfway(s', e, t, call) && OnlyTwo(s', d, e)
  {
    hide At, KeyTaken, HasFirst, ReadAt, CallOk;
    var cl := StartOf(call, |s.history|);
    Start(external, es, s, d, call);
    var s1 := Put(s, d, cl);
    var id := UnusedId(s.db.issued);
    assert Needs(s.db, cl) == [] && NextLock(s.db, cl) == None;
    RunStatement(external, es + [Begin(d, call)], s1, d, id, 0);
    es' := es + [Begin(d, call)] + [Do(d, id, 0)];
    s' := Put(s, d, cl.(pc := Insert));
    Validates(s.db, cl, id, |s.history|, s.external);
    assert Settle(s1, d, Stay(s.db, cl.(pc := Insert))) == s';
    assert LocksOf(FullInsert(s'.clients[d])[..0]) == {};
    assert s'.clients[e] == s.clients[e] && s'.clients[d].held == {} && call.from != call.to;
  }

  lemma Validates(db: Db, cl: Client, id: Id, clock: nat, external: bool)
    requires cl.pc == Validate && ParamsValid(cl.w.call)
    ensures DoStatement(db, cl, id, 0, clock, external) == Stay(db, cl.(pc := Insert))
  {
    hide DoInsert, DoFind, DoLockRow, DoCountBooked, DoLockAcc, DoReadAcc, DoUpdateAcc, DoCommit;
  }

  /** In any reachable state in which nobody is in the middle of a transaction and a booked PENDING transfer can be
      reversed, its Fail and a Transfer between the same accounts, from the greater to the smaller, can come to wait for
      each other. */
  lemma TransferAndFailCanBlock(external: bool, es: seq<Event>, s: State, d: nat, e: nat, t: Id, call: Call)
    returns (es': seq<Event>, s': State)
    requires At(external, es, s) && Idle(s) && Reversible(s.db, t) && GoesAgainst(s.db, t, call)
    requires d !in s.clients && e !in s.clients && d != e
    requires CallOk(call) && ParamsValid(call) && !KeyTaken(s.db, call.key)
    ensures es <= es' && ValidRun(external, es') && StateAfter(external, es') == s'
    ensures d in s'.clients && e in s'.clients && s'.clients[d].w.call == call && s'.clients[e].w.call == CallFail(t)
    ensures WaitCycle(s', [d, e])
  {
    hide At, Idle, Reversible, GoesAgainst, CallOk, ParamsValid;
    hide KeyTaken, WaitCycle, Inserting, Halfway, HasSecond, OnlyTwo;
    BothExist(s.db, t, call);
    var es1, s1 := FailsHalfway(external, es, s, d, e, t, call);
    var es2, s2 := ComesToInsert(external, es1, s1, d, e, t, call);
    var es3, s3 := InsertGoesOn(external, es2, s2, d, e, t, call);
    s' := ReversalTakes(external, es3, s3, d, e, t, call);
    es' := es3 + [Acquire(e)];
    TheyWait(s', d, e, t, call);
    Races.ReachedBy(external, es', s');
    hide StateAfter, ValidRun;
    TheirCalls(s', d, e, t, call);
  }

  lemma InsertGoesOn(external: bool, es: seq<Event>, s: State, d: nat, e: nat, t: Id, call: Call)
    returns (es': seq<Event>, s': State)
    requires At(external, es, s) && Inserting(s, d, call, 0) && Halfway(s, e, t, call) && d != e && OnlyTwo(s, d, e)
    ensures es <= es' && At(external, es', s') && s'.db == s.db && s'.clients.Keys == s.clients.Keys
    ensures Inserting(s', d, call, 3) && Halfway(s', e, t, call) && OnlyTwo(s', d, e)
  {
    hide At, Inserting, Halfway, OnlyTwo;
    var s1 := InsertTakes(external, es, s, d, e, t, call, 0);
    var es1 := es + [Acquire(d)];
    var s2 := InsertTakes(external, es1, s1, d, e, t, call, 1);
    var es2 := es1 + [Acquire(d)];
    s' := InsertTakes(external, es2, s2, d, e, t, call, 2);
    es' := es2 + [Acquire(d)];
  }

  lemma TheirCalls(s: State, d: nat, e: nat, t: Id, call: Call)
    requires Inserting(s, d, call, 3) && HasSecond(s, e, t, call)
    ensures d in s.clients && e in s.clients && s.clients[d].w.call == call && s.clients[e].w.call == CallFail(t)
  {
  }

  lemma BothExist(db: Db, t: Id, call: Call)
    requires Reversible(db, t) && GoesAgainst(db, t, call)
    ensures call.from in db.accounts && call.to in db.accounts
  {
    hide Booked;
    assert call.from in {call.from, call.to} && call.to in {call.from, call.to};
  }

  // ------------------------------------------------------------------------------------- from the empty bank

  /** After a deposit of 100 into account 0. */
  lemma Deposits(external: bool) returns (es: seq<Event>, s: State)
    ensures At(external, es, s) && Idle(s) && s.clients.Keys == {0, 1, 2} && s.db.transfers == map[]
            && s.db.issued == {0, 1}
    ensures s.db.accounts == map[0 := Account(100, 1, Active), 1 := Account(0, 0, Active)]
    ensures s.history == [Commit(0, Open(0)), Commit(1, Open(1)), Commit(2, Mutate(0, 100))]
  {
    var s0: State;
    es, s0 := Races.OpensTwo(external);
    hide At, Idle;
    es, s := SoloMutate(external, es, s0, 2, 0, 100, Credit);
    assert s.clients.Keys == {0, 1, 2};
    assert s.db.accounts == map[0 := Account(100, 1, Active), 1 := Account(0, 0, Active)];
  }

  /** Where settlements come from outside, a transfer of all of it is booked, PENDING and can be reversed. */
  lemma BooksPending() returns (es: seq<Event>, s: State)
    ensures At(true, es, s) && Idle(s) && s.clients.Keys == {0, 1, 2, 3} && Reversible(s.db, 2)
    ensures s.db.transfers.Keys == {2} && s.db.transfers[2].from == 0 && s.db.transfers[2].to == 1
            && s.db.transfers[2].key == "k"
  {
    var s0, mid: State;
    es, s0 := Deposits(true);
    hide At, Idle, Exec, RowsOk, Guard, Reversible;
    es, mid, s := SoloTransfer(true, es, s0, 3, Races.CALL, 2, 0);
    assert s.clients.Keys == {0, 1, 2, 3};
    PendingIsReversible(s0.db, mid.db, s.db);
  }

  lemma PendingIsReversible(db: Db, created: Db, booked: Db)
    requires RowsOk(db) && Guard(db, Create(2, RowOf(Races.CALL, 0)))
             && created == Exec(db, Create(2, RowOf(Races.CALL, 0)))
    requires RowsOk(created) && Guard(created, Book(2, 0, 1, 100, false))
             && booked == Exec(created, Book(2, 0, 1, 100, false))
    requires db.accounts == map[0 := Account(100, 1, Active), 1 := Account(0, 0, Active)] && db.transfers == map[]
    ensures booked.transfers == map[2 := RowOf(Races.CALL, 0)] && Reversible(booked, 2)
  {
    BankLaws.ExecBookEffect(created, Book(2, 0, 1, 100, false));
    hide RowsOk;
    assert created.transfers == map[2 := RowOf(Races.CALL, 0)] && created.accounts == db.accounts;
    assert booked.transfers == map[2 := RowOf(Races.CALL, 0)];
  }

  /** So there is a run in which a Transfer and a Fail wait for each other. */
  lemma TransferAndFailBlockEachOther() returns (es: seq<Event>)
    ensures ValidRun(true, es)
    ensures var s := StateAfter(true, es);
            && 4 in s.clients && s.clients[4].w.call == CallTransfer(1, 0, 100, "l", 1)
            && 5 in s.clients && s.clients[5].w.call == CallFail(2) && WaitCycle(s, [4, 5])
  {
    var s, s': State;
    es, s := BooksPending();
    hide At, Idle, Reversible, WaitCycle, StateAfter, ValidRun;
    var call := CallTransfer(1, 0, 100, "l", 1);
    assert !KeyTaken(s.db, call.key) && GoesAgainst(s.db, 2, call);
    es, s' := TransferAndFailCanBlock(true, es, s, 4, 5, 2, call);
  }
}
