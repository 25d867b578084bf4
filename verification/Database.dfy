/** The database as the services see it: tables that statements update in place, and other clients that get their turns
    between any two statements. Everything it does is a run of the protocol. */
module Database {
  import opened Common
  import opened Ledger
  import opened Bank
  import opened History
  import opened Protocol
  import opened Invariant
  import opened Refinement
  import opened Solo

  class Database {
    const external: bool
    /** Which statements of the services the database will fail, by number. LOCK TABLE gives up on its locks there. */
    const faults: nat -> bool
    /** Which clients are not sessions of the services. */
    const strangers: nat -> bool
    var accounts: map<Id, Account>
    var transfers: map<Id, Transfer>
    var entries: seq<Entry>
    var issued: set<Id>
    var sessions: map<nat, Client>
    var history: seq<Commit>
    /** What the other clients will try to do, one batch for each turn they get. */
    var others: seq<seq<Event>>
    /** How many statements the services have issued; those of them that would have waited for ever; and for which of
        them the database failed a session, if it did. */
    var statements: nat
    ghost var waits: set<nat>
    ghost var blamed: map<nat, nat>
    ghost var run: seq<Event>

    constructor (external: bool, others: seq<seq<Event>>, faults: nat -> bool, strangers: nat -> bool)
      ensures Valid() && run == [] && this.external == external && this.others == others && Now() == Init(external)
      ensures this.faults == faults && this.strangers == strangers && statements == 0 && waits == {}
    {
      this.external, this.others, this.faults, this.strangers := external, others, faults, strangers;
      accounts, transfers, entries, issued := map[], map[], [], {};
      sessions, history, run := map[], [], [];
      statements, waits, blamed := 0, {}, map[];
    }

    function Tables(): Db
      reads this
    {
      Db(accounts, transfers, entries, issued)
    }

    function Now(): State
      reads this
    {
      State(Tables(), history, sessions, external)
    }

    /** The fields are what the run so far makes of an empty database; and no statement of the services ever failed
        without a cause. */
    ghost predicate Valid()
      reads this
    {
      At(external, run, Now()) && Excused(run, strangers, blamed, faults, waits)
    }

    /** The database failed a statement of session c, or let it wait for ever. */
    ghost predicate Blamed(c: nat)
      reads this
    {
      HasCause(c, blamed, faults, waits)
    }

    lemma HurtIsBlamed(c: nat)
      requires Valid() && !strangers(c)
      ensures Hurt(run, c) ==> Blamed(c)
    {
      hide At, Hurt;
    }

    // -------------------------------------------------------------------------- statements that change the tables

    /** INSERT INTO transfers, or a violation of its keys. */
    method InsertTransfer(c: nat, newId: Id, now: nat)
      requires c in sessions && sessions[c].w.call.CallTransfer?
      modifies this`transfers, this`issued, this`sessions, this`history
      ensures Now() == Settle(old(Now()), c, DoInsert(old(Tables()), old(sessions[c]), newId, now))
    {
      var cl := sessions[c];
      if KeyTaken(Tables(), cl.w.call.key) {
        sessions := sessions[c := EndTx(cl, Find)];
      } else if cl.w.call.from !in accounts || cl.w.call.to !in accounts {
        sessions := sessions[c := Return(Tables(), cl, Internal).cl];
      } else {
        var row := RowOf(cl.w.call, now);
        transfers := transfers[newId := row];
        issued := issued + {newId};
        sessions := sessions[c := Knowing(EndTx(cl, LockRow), Some(newId)).(attempt := 0)];
        history := history + [Commit(c, Create(newId, row))];
      }
    }

    /** UPDATE accounts SET balance_cents, version, for every account that the transaction updated. */
    method PublishAccounts(cl: Client)
      requires cl.bal.Keys <= accounts.Keys
      modifies this`accounts
      ensures accounts == Publish(old(Tables()), cl).accounts
    {
      var left := cl.bal.Keys;
      while left != {}
        invariant left <= cl.bal.Keys && accounts.Keys == old(accounts.Keys)
        invariant forall a :: a in accounts ==>
                    accounts[a] == if a in cl.bal && a !in left
                                   then old(accounts[a]).(balance := cl.bal[a], version := old(accounts[a].version) + 1)
                                   else old(accounts[a])
        decreases |left|
      {
        var a :| a in left;
        accounts := accounts[a := accounts[a].(balance := cl.bal[a], version := accounts[a].version + 1)];
        left := left - {a};
      }
    }

    /** UPDATE transfers, if the transaction had a transfer at hand. */
    method PublishTransfer(cl: Client)
      modifies this`transfers
      ensures transfers == Publish(old(Tables()), cl).transfers
    {
      if cl.w.tid.Some? && cl.w.tid.value in transfers {
        transfers := transfers[cl.w.tid.value := WrittenRow(transfers[cl.w.tid.value], cl.write)];
      }
    }

    /** COMMIT. */
    method CommitTransaction(c: nat)
      requires c in sessions && sessions[c].bal.Keys <= accounts.Keys
      modifies this`accounts, this`transfers, this`entries, this`sessions, this`history
      ensures Now() == Settle(old(Now()), c, DoCommit(old(Tables()), old(sessions[c]), external))
    {
      var cl := sessions[c];
      var out := DoCommit(Tables(), cl, external);
      PublishAccounts(cl);
      PublishTransfer(cl);
      entries := entries + cl.adds;
      sessions := sessions[c := out.cl];
      if out.log.Some? { history := history + [Commit(c, out.log.value)]; }
    }

    /** UPDATE transfers SET status = 'FAILED' WHERE id = $1. */
    method MarkFailed(c: nat)
      requires c in sessions && sessions[c].w.tid.Some?
      modifies this`transfers, this`sessions, this`history
      ensures Now() == Settle(old(Now()), c, DoMarkFail(old(Tables()), old(sessions[c])))
    {
      var t := sessions[c].w.tid.value;
      if t in transfers {
        transfers := transfers[t := transfers[t].(status := Failed)];
        history := history + [Commit(c, Op.MarkFailed(t))];
      }
      sessions := sessions[c := EndTx(sessions[c], Done(Invalid(true)))];
    }

    /** INSERT INTO accounts. */
    method OpenAccount(c: nat, newId: Id)
      requires c in sessions
      modifies this`accounts, this`issued, this`sessions, this`history
      ensures Now() == Settle(old(Now()), c, DoOpen(old(Tables()), old(sessions[c]), newId))
    {
      accounts := accounts[newId := Account(0, 0, Active)];
      issued := issued + {newId};
      sessions := sessions[c := EndTx(sessions[c], Done(Completed))];
      history := history + [Commit(c, Open(newId))];
    }

    /** UPDATE accounts SET status = $1 WHERE id = $2. */
    method UpdateStatus(c: nat)
      requires c in sessions && sessions[c].w.call.CallSetStatus?
      modifies this`accounts, this`sessions, this`history
      ensures Now() == Settle(old(Now()), c, DoSetStatus(old(Tables()), old(sessions[c])))
    {
      var cl := sessions[c];
      var a := cl.w.call.account;
      if a in accounts {
        accounts := accounts[a := accounts[a].(status := cl.w.call.status)];
        history := history + [Commit(c, SetStatus(a, cl.w.call.status))];
        sessions := sessions[c := EndTx(cl, Done(Completed))];
      } else {
        sessions := sessions[c := Return(Tables(), cl, NotFound).cl];
      }
    }

    /** TRUNCATE transfers, entries, accounts, and COMMIT. */
    method TruncateTables(c: nat)
      requires c in sessions
      modifies this`accounts, this`transfers, this`entries, this`sessions, this`history
      ensures Now() == Settle(old(Now()), c, DoTruncate(old(Tables()), old(sessions[c])))
    {
      accounts, transfers, entries := map[], map[], [];
      sessions := sessions[c := EndTx(sessions[c], Done(Completed))];
      history := history + [Commit(c, Truncate)];
    }

    /** SELECT ... WHERE idempotency_key = $1. */
    method FindByKey(c: nat)
      requires c in sessions && sessions[c].w.call.CallTransfer? && KeysUnique(Tables())
      modifies this`sessions
      ensures Now() == Settle(old(Now()), c, DoFind(old(Tables()), old(sessions[c])))
    {
      var cl := sessions[c];
      var key := cl.w.call.key;
      if !KeyTaken(Tables(), key) {
        sessions := sessions[c := Return(Tables(), cl, Internal).cl];
      } else {
        var t :| t in transfers && transfers[t].key == key;
        assert t == ByKey(Tables(), key);
        hide KeyTaken, ByKey, KeysUnique;
        var row := transfers[t];
        if row.from != cl.w.call.from || row.to != cl.w.call.to || row.amount != cl.w.call.amount {
          sessions := sessions[c := Return(Tables(), cl.(clashed := cl.clashed + 1), Conflicted).cl];
        } else if row.status == Settled {
          sessions := sessions[c := Return(Tables(), Knowing(cl, Some(t)), Accepted(Settled)).cl];
        } else if row.status == Failed {
          sessions := sessions[c := Return(Tables(), Knowing(cl, Some(t)), Invalid(true)).cl];
        } else {
          sessions := sessions[c := Knowing(EndTx(cl, LockRow), Some(t)).(attempt := 0)];
        }
      }
    }

    /** A statement that only reads, or writes privately: what it leaves is its own session. */
    method Keep(c: nat, out: Out)
      requires c in sessions && Silent(Tables(), out)
      modifies this`sessions
      ensures Now() == Settle(old(Now()), c, out)
    {
      sessions := sessions[c := out.cl];
    }

    // ---------------------------------------------------------------------------------------------- one event

    /** The statement at the program counter of client c. */
    method Statement(c: nat, newId: Id, now: nat)
      requires c in sessions && Typed(sessions[c]) && !sessions[c].pc.Done?
      requires KeysUnique(Tables()) && sessions[c].bal.Keys <= accounts.Keys
      modifies this`accounts, this`transfers, this`entries, this`issued, this`sessions, this`history
      ensures Now() == Settle(old(Now()), c,
                              DoStatement(old(Tables()), old(sessions[c]), newId, now, |old(history)|, external))
    {
      var cl := sessions[c];
      OnlyReads(Tables(), cl, now, |history|, external);
      hide DoValidate, DoInsert, DoFind, DoLockRow, DoCountBooked;
      hide DoReadAcc, DoLockAcc, DoUpdateAcc, DoAddEntry, DoWriteRow;
      hide DoCommit, DoMarkFail, DoFetch, DoOpen, DoSetStatus, DoTruncate, KeysUnique, Continues;
      match cl.pc {
        case Validate => Keep(c, DoValidate(Tables(), cl));
        case Insert => InsertTransfer(c, newId, now);
        case Find => FindByKey(c);
        case LockRow => Keep(c, DoLockRow(Tables(), cl, |history|, external));
        case CountBooked => Keep(c, DoCountBooked(Tables(), cl, external));
        case ReadAcc(n) => Keep(c, DoReadAcc(Tables(), cl, n));
        case LockAcc(n) => Keep(c, DoLockAcc(Tables(), cl, n));
        case UpdateAcc(n) => Keep(c, DoUpdateAcc(Tables(), cl, n));
        case AddEntry(n) => Keep(c, DoAddEntry(Tables(), cl, n, external));
        case WriteRow => Keep(c, DoWriteRow(Tables(), cl, now));
        case CommitTx => CommitTransaction(c);
        case MarkFail => MarkFailed(c);
        case Fetch => Keep(c, DoFetch(Tables(), cl));
        case OpenAcc => OpenAccount(c, newId);
        case WriteAccStatus => UpdateStatus(c);
        case LockTables => Keep(c, Stay(Tables(), cl.(pc := TruncateAll)));
        case TruncateAll => TruncateTables(c);
      }
    }

    method Perform(c: nat, newId: Id, now: nat)
      requires Valid() && Enabled(Now(), Do(c, newId, now))
      modifies this`accounts, this`transfers, this`entries, this`issued, this`sessions, this`history, this`run
      ensures Valid() && run == old(run) + [Do(c, newId, now)]
      ensures Now() == Apply(old(Now()), Do(c, newId, now))
    {
      CanPerform(external, run, Now(), c);
      Extend(external, run, Now(), Do(c, newId, now));
      ExcusedMore(run, Do(c, newId, now), strangers, blamed, faults, waits);
      hide At, DoStatement, Free, NextLock, Typed, KeysUnique, Excused;
      Statement(c, newId, now);
      run := run + [Do(c, newId, now)];
    }

    /** A call begins. */
    method Begin(c: nat, call: Call)
      requires Valid() && Enabled(Now(), Event.Begin(c, call))
      modifies this`sessions, this`run
      ensures Valid() && run == old(run) + [Event.Begin(c, call)] && Now() == Apply(old(Now()), Event.Begin(c, call))
    {
      Extend(external, run, Now(), Event.Begin(c, call));
      ExcusedMore(run, Event.Begin(c, call), strangers, blamed, faults, waits);
      hide At, CallOk, Excused;
      sessions := sessions[c := StartOf(call, |history|)];
      run := run + [Event.Begin(c, call)];
    }

    /** A lock is free and taken. */
    method Acquire(c: nat)
      requires Valid() && Enabled(Now(), Event.Acquire(c))
      modifies this`sessions, this`run
      ensures Valid() && run == old(run) + [Event.Acquire(c)] && Now() == Apply(old(Now()), Event.Acquire(c))
    {
      Extend(external, run, Now(), Event.Acquire(c));
      ExcusedMore(run, Event.Acquire(c), strangers, blamed, faults, waits);
      hide At, NextLock, Free, Excused;
      var cl := sessions[c];
      sessions := sessions[c := cl.(held := cl.held + {NextLock(Tables(), cl).value})];
      run := run + [Event.Acquire(c)];
    }

    /** The database fails the statement, or the transaction ends some other way without a commit. */
    method Abort(c: nat)
      requires Valid() && Enabled(Now(), Event.Abort(c)) && (strangers(c) || Blamed(c))
      modifies this`sessions, this`run
      ensures Valid() && run == old(run) + [Event.Abort(c)] && Now() == Apply(old(Now()), Event.Abort(c))
    {
      Extend(external, run, Now(), Event.Abort(c));
      ExcusedMore(run, Event.Abort(c), strangers, blamed, faults, waits);
      hide At, Excused;
      sessions := sessions[c := Aborted(sessions[c])];
      run := run + [Event.Abort(c)];
    }

    method LockFail(c: nat)
      requires Valid() && Enabled(Now(), Event.LockFail(c)) && (strangers(c) || Blamed(c))
      modifies this`sessions, this`run
      ensures Valid() && run == old(run) + [Event.LockFail(c)] && Now() == Apply(old(Now()), Event.LockFail(c))
    {
      Extend(external, run, Now(), Event.LockFail(c));
      ExcusedMore(run, Event.LockFail(c), strangers, blamed, faults, waits);
      hide At, Excused;
      sessions := sessions[c := LockFailed(sessions[c])];
      run := run + [Event.LockFail(c)];
    }

    /** Any event of a stranger. */
    method Take(e: Event)
      requires Valid() && Enabled(Now(), e) && strangers(e.client)
      modifies this`accounts, this`transfers, this`entries, this`issued, this`sessions, this`history, this`run
      ensures Valid() && run == old(run) + [e] && Now() == Apply(old(Now()), e)
    {
      hide At, Enabled, Apply, Excused;
      match e {
        case Begin(c, call) => Begin(c, call);
        case Acquire(c) => Acquire(c);
        case Do(c, newId, now) => Perform(c, newId, now);
        case Abort(c) => Abort(c);
        case LockFail(c) => LockFail(c);
      }
    }

    /** A stranger does what it can. */
    method Try(me: nat, e: Event)
      requires Valid() && !strangers(me)
      modifies this`accounts, this`transfers, this`entries, this`issued, this`sessions, this`history, this`run
      ensures Valid() && Foreign(me, old(Now()), Now()) && old(run) <= run
      ensures Now() == if strangers(e.client) && Enabled(old(Now()), e) then Apply(old(Now()), e) else old(Now())
    {
      hide At, Enabled, Apply, Excused;
      if strangers(e.client) && Enabled(Now(), e) {
        ForeignStep(me, Now(), e);
        Take(e);
      }
    }

    /** The other clients get a turn: of the next batch they do, one after the other, all that they can. */
    method OthersTurn(me: nat)
      requires Valid() && others != [] && !strangers(me)
      modifies this`accounts, this`transfers, this`entries, this`issued, this`sessions, this`history, this`run,
      this`others
      ensures Valid() && others == old(others)[1..] && Foreign(me, old(Now()), Now()) && old(run) <= run
      ensures Now() == AfterBatch(old(Now()), strangers, old(others)[0])
    {
      hide At, Enabled, Apply, Excused, AfterBatch, Foreign;
      var batch := others[0];
      others := others[1..];
      var i := 0;
      ghost var s0 := Now();
      NothingForeign(me, s0, strangers);
      assert batch[..0] == [];
      while i < |batch|
        invariant 0 <= i <= |batch| && Valid() && others == old(others)[1..] && Foreign(me, s0, Now())
                  && old(run) <= run
        invariant Now() == AfterBatch(s0, strangers, batch[..i])
      {
        OneMoreInBatch(s0, strangers, batch, i);
        ghost var s1 := Now();
        Try(me, batch[i]);
        ForeignJoins(me, s0, s1, Now());
        i := i + 1;
      }
      assert batch[..i] == batch;
    }

    /** gen_random_uuid. */
    method FreshId() returns (id: Id)
      ensures id !in issued
    {
      id := 0;
      var left := issued;
      while left != {}
        invariant left <= issued && forall u :: u in issued && u !in left ==> u < id
        decreases |left|
      {
        var u :| u in left;
        left := left - {u};
        if id <= u { id := u + 1; }
      }
    }

    /** Takes the locks that the next statement of session me needs, waiting for each while the others take their
        turns. It waits in vain only for a lock that somebody else holds when all turns are taken. */
    method TakeLocks(me: nat) returns (ok: bool)
      requires Valid() && Unfinished(Now(), me) && !strangers(me)
      modifies this`accounts, this`transfers, this`entries, this`issued, this`sessions, this`history, this`run,
      this`others
      ensures Valid() && old(run) <= run && old(history) <= history && Unfinished(Now(), me)
      ensures SameButLocks(old(sessions[me]), sessions[me])
      ensures if ok then NextLock(Tables(), sessions[me]) == None else sessions[me].pc != Validate
      ensures !ok ==> others == [] && Waits(Now(), me)
      ensures old(others) != [] ==> |others| < |old(others)|
    {
      hide At, Needs, LocksOf, FirstMissing, NextLock, Free, DoStatement, Excused, AfterBatch;
      ok := true;
      ghost var before := sessions[me];
      if others != [] { OthersTurn(me); }
      while ok && NextLock(Tables(), sessions[me]).Some?
        invariant Valid() && old(run) <= run && Unfinished(Now(), me)
        invariant SameButLocks(before, sessions[me]) && old(history) <= history
        invariant !ok ==> sessions[me].pc != Validate && others == [] && Waits(Now(), me)
        invariant |others| <= |old(others)| && (old(others) != [] ==> |others| < |old(others)|)
        decreases ok, |others|, |LocksOf(Needs(Tables(), sessions[me])) - sessions[me].held|
      {
        if Free(Now(), me, NextLock(Tables(), sessions[me]).value) {
          ArmsMore(Tables(), sessions[me]);
          Acquire(me);
        } else if others != [] {
          OthersTurn(me);
        } else {
          NeverWaits(Tables(), sessions[me]);
          ok := false;
        }
      }
    }

    /** Issues a statement: takes its locks, unless they cannot be had. */
    method Issue(me: nat) returns (ok: bool)
      requires Valid() && Unfinished(Now(), me) && !strangers(me)
      modifies this
      ensures Valid() && old(run) <= run && old(history) <= history && Unfinished(Now(), me)
      ensures SameButLocks(old(sessions[me]), sessions[me]) && statements == old(statements) + 1
      ensures if ok then NextLock(Tables(), sessions[me]) == None && waits == old(waits)
              else sessions[me].pc != Validate && others == [] && Waits(Now(), me)
                   && waits == old(waits) + {old(statements)}
      ensures old(others) != [] ==> |others| < |old(others)|
      ensures blamed == old(blamed)
    {
      hide At, Needs, NextLock, Free, Waits, Excused;
      ok := TakeLocks(me);
      if !ok {
        MoreWaits(run, strangers, blamed, faults, waits, statements);
        waits := waits + {statements};
      }
      statements := statements + 1;
    }

    /** Runs the statement of session me once its locks are taken. It fails exactly where the database does, or when it
        would wait for ever. */
    method Execute(me: nat) returns (ok: bool)
      requires Valid() && Unfinished(Now(), me) && Typed(sessions[me]) && !strangers(me)
      modifies this
      ensures Valid() && old(run) <= run && me in sessions && old(history) <= history
      ensures ok ==> Ran(old(sessions[me]), sessions[me], external)
      ensures !ok ==> sessions[me] == Aborted(old(sessions[me])) && old(sessions[me]).pc != Validate
      ensures statements == old(statements) + 1 && (old(others) != [] ==> |others| < |old(others)|)
      ensures !ok && !faults(old(statements)) ==> old(statements) in waits && others == []
      ensures ok ==> waits == old(waits) && (faults(old(statements)) ==> old(sessions[me]).pc == Validate)
    {
      hide At, NextLock, Free, DoStatement, Apply, Typed, Ran, Excused, Waits;
      ghost var before, n := sessions[me], statements;
      ok := Issue(me);
      if !ok || (faults(statements - 1) && sessions[me].pc != Validate) {
        Blame(run, strangers, blamed, faults, waits, me, n);
        blamed := blamed[me := n];
        AbortEffect(Now(), me);
        Abort(me);
        ok := false;
      } else {
        TypedStill(before, sessions[me]);
        RanSince(before, sessions[me]);
        Proceed(me);
      }
    }

    /** The statement itself, with an identifier and a time that the database hands out. */
    method Proceed(me: nat)
      requires Valid() && Unfinished(Now(), me) && Typed(sessions[me]) && NextLock(Tables(), sessions[me]) == None
      modifies this`accounts, this`transfers, this`entries, this`issued, this`sessions, this`history, this`run
      ensures Valid() && old(run) <= run && me in sessions && old(history) <= history
      ensures Ran(old(sessions[me]), sessions[me], external)
    {
      hide At, NextLock, Free, DoStatement, Apply, Typed, Ran, Excused;
      var newId := FreshId();
      var now: nat := *;
      RunsOn(sessions[me], Now(), me, newId, now);
      DoEffect(Now(), me, newId, now);
      Perform(me, newId, now);
    }

    /** LOCK TABLE, which deadlocks or times out exactly where the database has it so, or when it would wait for
        ever. */
    method LockTable(me: nat) returns (ok: bool)
      requires Valid() && me in sessions && sessions[me].pc == LockTables && !strangers(me)
      modifies this
      ensures Valid() && old(run) <= run && me in sessions && old(history) <= history
      ensures if ok then SameButLocks(old(sessions[me]), sessions[me])
              else sessions[me] == LockFailed(old(sessions[me]))
      ensures statements == old(statements) + 1
      ensures !ok && !faults(old(statements)) ==> old(statements) in waits && others == []
      ensures ok ==> waits == old(waits) && !faults(old(statements))
    {
      hide At, NextLock, Free, Excused, Waits;
      ghost var n := statements;
      ok := Issue(me);
      if !ok || faults(statements - 1) {
        Blame(run, strangers, blamed, faults, waits, me, n);
        blamed := blamed[me := n];
        LockFailEffect(Now(), me);
        LockFail(me);
        ok := false;
      }
    }
  }

  /** A statement of client c failed, or gave up on its locks. */
  predicate Hurt(run: seq<Event>, c: nat) {
    exists i :: 0 <= i < |run| && (run[i] == Event.Abort(c) || run[i] == Event.LockFail(c))
  }

  ghost predicate HasCause(c: nat, blamed: map<nat, nat>, faults: nat -> bool, waits: set<nat>) {
    c in blamed && (faults(blamed[c]) || blamed[c] in waits)
  }

  /** No session of the services was ever hurt without a cause. */
  ghost predicate Excused(run: seq<Event>, strangers: nat -> bool, blamed: map<nat, nat>, faults: nat -> bool,
                          waits: set<nat>) {
    forall c: nat :: Hurt(run, c) && !strangers(c) ==> HasCause(c, blamed, faults, waits)
  }

  lemma ExcusedMore(run: seq<Event>, e: Event, strangers: nat -> bool, blamed: map<nat, nat>, faults: nat -> bool,
                    waits: set<nat>)
    requires Excused(run, strangers, blamed, faults, waits)
    requires e.Abort? || e.LockFail? ==> strangers(e.client) || HasCause(e.client, blamed, faults, waits)
    ensures Excused(run + [e], strangers, blamed, faults, waits)
  {
    forall c: nat | Hurt(run + [e], c) && !strangers(c) ensures HasCause(c, blamed, faults, waits) {
      var i :| 0 <= i < |run + [e]| && ((run + [e])[i] == Event.Abort(c) || (run + [e])[i] == Event.LockFail(c));
      if i < |run| { assert run[i] == (run + [e])[i] && Hurt(run, c); }
    }
  }

  lemma MoreWaits(run: seq<Event>, strangers: nat -> bool, blamed: map<nat, nat>, faults: nat -> bool, waits: set<nat>,
                  n: nat)
    requires Excused(run, strangers, blamed, faults, waits)
    ensures Excused(run, strangers, blamed, faults, waits + {n})
  {
    hide Hurt;
  }

  lemma Blame(run: seq<Event>, strangers: nat -> bool, blamed: map<nat, nat>, faults: nat -> bool, waits: set<nat>,
              c: nat, n: nat)
    requires Excused(run, strangers, blamed, faults, waits) && (faults(n) || n in waits)
    ensures Excused(run, strangers, blamed[c := n], faults, waits) && HasCause(c, blamed[c := n], faults, waits)
  {
    hide Hurt;
  }

  /** The next lock of session me is not free. */
  ghost predicate Waits(s: State, me: nat) {
    me in s.clients && NextLock(s.db, s.clients[me]).Some? && !Free(s, me, NextLock(s.db, s.clients[me]).value)
  }

  /** What strangers make of a batch of events: each is done where it can be. */
  ghost function AfterBatch(s: State, strangers: nat -> bool, batch: seq<Event>): State {
    if batch == [] then s
    else
      var before, e := AfterBatch(s, strangers, batch[..|batch| - 1]), batch[|batch| - 1];
      if strangers(e.client) && Enabled(before, e) then Apply(before, e) else before
  }

  lemma NothingForeign(me: nat, s: State, strangers: nat -> bool)
    ensures Foreign(me, s, s) && AfterBatch(s, strangers, []) == s
  {
  }

  lemma ForeignJoins(me: nat, s: State, s1: State, s2: State)
    requires Foreign(me, s, s1) && Foreign(me, s1, s2)
    ensures Foreign(me, s, s2)
  {
    forall i | |s.history| <= i < |s2.history| ensures s2.history[i].client != me {
      if i < |s1.history| { assert s2.history[i] == s1.history[i]; }
    }
  }

  lemma OneMoreInBatch(s: State, strangers: nat -> bool, batch: seq<Event>, i: nat)
    requires i < |batch|
    ensures var before := AfterBatch(s, strangers, batch[..i]);
            AfterBatch(s, strangers, batch[..i + 1])
            == if strangers(batch[i].client) && Enabled(before, batch[i]) then Apply(before, batch[i]) else before
  {
    assert batch[..i + 1][..i] == batch[..i];
    hide Enabled, Apply;
  }

  lemma LockFailEffect(s: State, me: nat)
    requires Enabled(s, Event.LockFail(me))
    ensures var s' := Apply(s, Event.LockFail(me));
            me in s'.clients && s'.clients[me] == LockFailed(s.clients[me]) && s'.history == s.history
  {
  }

  lemma AbortEffect(s: State, me: nat)
    requires Enabled(s, Event.Abort(me))
    ensures var s' := Apply(s, Event.Abort(me));
            me in s'.clients && s'.clients[me] == Aborted(s.clients[me]) && s'.history == s.history
  {
  }

  lemma DoEffect(s: State, me: nat, newId: Id, now: nat)
    requires Enabled(s, Do(me, newId, now))
    ensures var s' := Apply(s, Do(me, newId, now));
            && me in s'.clients && s.history <= s'.history
            && s'.clients[me] == DoStatement(s.db, s.clients[me], newId, now, |s.history|, s.external).cl
  {
    hide DoStatement;
  }

  lemma TypedStill(cl: Client, cl': Client)
    requires SameButLocks(cl, cl') && Typed(cl)
    ensures Typed(cl')
  {
  }

  lemma RanSince(cl: Client, cl1: Client)
    requires SameButLocks(cl, cl1)
    ensures forall cl', external {:trigger Ran(cl1, cl', external)} :: Ran(cl1, cl', external) ==>
              Ran(cl, cl', external)
  {
    forall cl', external {:trigger Ran(cl1, cl', external)} | Ran(cl1, cl', external) ensures Ran(cl, cl', external) {
      var db, held, newId, now, clock :|
        Typed(cl1.(held := held)) && cl' == DoStatement(db, cl1.(held := held), newId, now, clock, external).cl;
      hide DoStatement, Typed;
      assert cl1.(held := held) == cl.(held := held);
    }
  }

  predicate SameButLocks(cl: Client, cl': Client) { cl' == cl.(held := cl'.held) }

  /** cl' is what the statement of cl leaves, on the tables as they were when its turn came. */
  ghost predicate Ran(cl: Client, cl': Client, external: bool) {
    exists db, held, newId, now, clock ::
      Typed(cl.(held := held)) && cl' == DoStatement(db, cl.(held := held), newId, now, clock, external).cl
  }

  /** What other clients do leaves this client's session alone; clients stay, and history grows by commits that are not
      its own. */
  ghost predicate Foreign(me: nat, s: State, s': State) {
    && s'.external == s.external
    && (me in s.clients <==> me in s'.clients) && (me in s.clients ==> s'.clients[me] == s.clients[me])
    && s.history <= s'.history && forall i :: |s.history| <= i < |s'.history| ==> s'.history[i].client != me
  }

  lemma ForeignStep(me: nat, s: State, e: Event)
    requires Enabled(s, e) && e.client != me
    ensures Foreign(me, s, Apply(s, e))
  {
    hide DoStatement, NextLock, Free, Typed;
  }

  lemma RunsOn(before: Client, s: State, me: nat, newId: Id, now: nat)
    requires me in s.clients && before == s.clients[me] && Typed(s.clients[me])
    ensures Ran(before, DoStatement(s.db, s.clients[me], newId, now, |s.history|, s.external).cl, s.external)
  {
    hide DoStatement, Typed;
    assert s.clients[me] == before.(held := s.clients[me].held);
  }

  /** A statement that needs no lock never waits. */
  lemma NeverWaits(db: Db, cl: Client)
    requires NextLock(db, cl).Some?
    ensures cl.pc != Validate && !cl.pc.Done?
  {
  }

  /** Which statements leave the tables alone. */
  lemma OnlyReads(db: Db, cl: Client, now: nat, clock: nat, external: bool)
    requires Typed(cl)
    ensures cl.pc.Validate? ==> Silent(db, DoValidate(db, cl))
    ensures cl.pc.LockRow? ==> Silent(db, DoLockRow(db, cl, clock, external))
    ensures cl.pc.CountBooked? ==> Silent(db, DoCountBooked(db, cl, external))
    ensures cl.pc.ReadAcc? ==> Silent(db, DoReadAcc(db, cl, cl.pc.n))
    ensures cl.pc.LockAcc? ==> Silent(db, DoLockAcc(db, cl, cl.pc.n))
    ensures cl.pc.UpdateAcc? ==> Silent(db, DoUpdateAcc(db, cl, cl.pc.n))
    ensures cl.pc.AddEntry? ==> Silent(db, DoAddEntry(db, cl, cl.pc.n, external))
    ensures cl.pc.WriteRow? ==> Silent(db, DoWriteRow(db, cl, now))
    ensures cl.pc.Fetch? ==> Silent(db, DoFetch(db, cl))
  {
    hide NewBalance, VersionMatches, NewEntry, ReadAt, UpdateAt, Select, Continues;
  }

  predicate Silent(db: Db, out: Out) { out.db == db && out.log == None }

  lemma CanPerform(external: bool, run: seq<Event>, s: State, c: nat)
    requires At(external, run, s) && c in s.clients
    ensures KeysUnique(s.db)
    ensures s.clients[c].bal.Keys <= s.db.accounts.Keys
  {
    EveryInterleavingRefinesTheAtomicBank(external, run);
    InvKnowsDb(s);
    assert ClientOk(s, s.clients[c]);
    hide PcShape, CallShape, Refines, Exclusion, Select;
    forall a | a in s.clients[c].bal ensures a in s.db.accounts {
      assert SnapOk(s.db, a, s.clients[c].w.snap[a]);
    }
  }
}
