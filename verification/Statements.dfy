/** Every statement of every call, run where its locks are held, keeps what its client knows and commits
    either nothing or one operation of the atomic bank. One lemma for each statement. */
module Statements {
  import opened Common
  import opened Ledger
  import opened Bank
  import opened Protocol
  import opened Invariant

  /** The client stands at a statement it can run. */
  ghost predicate CanRun(db: Db, cl: Client, external: bool) {
    RowsOk(db) && Shape(cl, external) && Linked(db, cl.w, cl.held) && NextLock(db, cl) == None
  }

  lemma {:induction false} NoneMissing(needs: seq<Lock>, held: set<Lock>)
    requires FirstMissing(needs, held) == None
    ensures forall l :: l in needs ==> l in held
  {
    if needs != [] { NoneMissing(needs[1..], held); }
  }

  /** A statement that runs holds every lock it needs. */
  lemma NeedsHeld(db: Db, cl: Client, n: nat)
    requires NextLock(db, cl) == None && n < |Needs(db, cl)|
    ensures Needs(db, cl)[n] in cl.held
  {
    hide Needs;
    NoneMissing(Needs(db, cl), cl.held);
  }

  // ------------------------------------------------------------------ statements that end a transaction

  predicate AtRest(cl: Client) {
    CallShape(cl) && cl.held == {} && !cl.pc.TruncateAll? && NoTx(cl)
    && match cl.pc
       case ReadAcc(n) => cl.w.call.CallMutate? && n == 0
       case CountBooked => false
       case LockAcc(_) => false
       case UpdateAcc(_) => false
       case AddEntry(_) => false
       case WriteRow => false
       case CommitTx => false
       case _ => RestShape(cl)
  }

  lemma RestOk(db: Db, cl: Client, cl': Client, external: bool)
    requires RowsOk(db) && AtRest(cl') && Remembers(db, cl'.w) && cl'.w.call == cl.w.call
    ensures StepOk(db, cl, Stay(db, cl'), external)
  {
    hide Remembers, RowsOk, CallShape, RestShape, CountShape, LockShape, UpdateShape, AddShape, WriteShape, CommitShape;
  }

  lemma RemembersReturn(db: Db, cl: Client, result: Result)
    requires Remembers(db, cl.w)
    ensures Remembers(db, Return(db, cl, result).cl.w)
  {
  }

  lemma ReturnOk(db: Db, cl: Client, cl': Client, result: Result, external: bool)
    requires RowsOk(db) && CallShape(cl) && Remembers(db, cl'.w)
    requires cl'.w.call == cl.w.call && cl'.outer == cl.outer && cl'.attempt == cl.attempt
    requires cl'.w.tid == cl.w.tid || cl.w.call.CallTransfer?
    ensures StepOk(db, cl, Return(db, cl', result), external)
  {
    hide RowsOk, ParamsValid, StepOk, CallOk, Remembers;
    assert Remembers(db, Return(db, cl', result).cl.w) by { RemembersReturn(db, cl', result); }
    RestOk(db, cl, Return(db, cl', result).cl, external);
  }

  lemma ValidateOk(db: Db, cl: Client, external: bool)
    requires CanRun(db, cl, external) && cl.pc == Validate
    ensures StepOk(db, cl, DoValidate(db, cl), external)
  {
    hide RowsOk;
    if !ParamsValid(cl.w.call) { ReturnOk(db, cl, cl, Invalid(false), external); }
  }

  lemma CreateOk(db: Db, cl: Client, newId: Id, now: nat, external: bool)
    requires CanRun(db, cl, external) && IdsIssued(db) && cl.pc == Insert && newId !in db.issued
    requires !KeyTaken(db, cl.w.call.key) && cl.w.call.from in db.accounts && cl.w.call.to in db.accounts
    ensures StepOk(db, cl, DoInsert(db, cl, newId, now), external)
  {
    var out := DoInsert(db, cl, newId, now);
    assert Guard(db, Create(newId, RowOf(cl.w.call, now)));
    assert out.db == Exec(db, Create(newId, RowOf(cl.w.call, now)));
    hide RowsOk, Guard, Exec, KeyTaken;
  }

  lemma InsertOk(db: Db, cl: Client, newId: Id, now: nat, external: bool)
    requires CanRun(db, cl, external) && IdsIssued(db) && cl.pc == Insert && newId !in db.issued
    ensures StepOk(db, cl, DoInsert(db, cl, newId, now), external)
  {
    hide StepOk, RowsOk, KeyTaken;
    if KeyTaken(db, cl.w.call.key) {
      RestOk(db, cl, EndTx(cl, Find), external);
    } else if cl.w.call.from !in db.accounts || cl.w.call.to !in db.accounts {
      ReturnOk(db, cl, cl, Internal, external);
    } else {
      CreateOk(db, cl, newId, now, external);
    }
  }

  lemma FindOk(db: Db, cl: Client, external: bool)
    requires CanRun(db, cl, external) && IdsIssued(db) && cl.pc == Find
    ensures StepOk(db, cl, DoFind(db, cl), external)
  {
    hide StepOk, RowsOk, KeyTaken;
    if !KeyTaken(db, cl.w.call.key) {
      ReturnOk(db, cl, cl, Internal, external);
    } else {
      var t := ByKey(db, cl.w.call.key);
      var row := db.transfers[t];
      var found := Knowing(cl, Some(t));
      if !RowIs(db, t, cl.w.call.from, cl.w.call.to, cl.w.call.amount) {
        ReturnOk(db, cl, cl.(clashed := cl.clashed + 1), Conflicted, external);
      } else if row.status == Settled {
        ReturnOk(db, cl, found, Accepted(Settled), external);
      } else if row.status == Failed {
        ReturnOk(db, cl, found, Invalid(true), external);
      } else {
        RestOk(db, cl, Knowing(EndTx(cl, LockRow), Some(t)).(attempt := 0), external);
      }
    }
  }

  // ------------------------------------------------------------------------- the locked transfer row

  lemma RowLocked(db: Db, cl: Client, clock: nat, pc: Pc, external: bool)
    requires CanRun(db, cl, external) && cl.pc == LockRow && cl.w.tid.value in db.transfers
    requires var status := db.transfers[cl.w.tid.value].status;
             || (pc == CountBooked && status == Pending)
             || (pc == CommitTx && cl.w.call.CallSettle? && status == Settled)
             || (pc == CommitTx && cl.w.call.CallFail? && status == Failed)
    ensures StepOk(db, cl, Stay(db, cl.(w := cl.w.(row := Some(db.transfers[cl.w.tid.value])), epoch := clock,
                                        pc := pc)), external)
  {
    var t := cl.w.tid.value;
    assert RowOk(db, t);
    assert RowNeeds(db, cl.w.tid)[1] == TransferRow(t);
    NeedsHeld(db, cl, 0);
    NeedsHeld(db, cl, 1);
    hide RowsOk, Needs, RowNeeds, FirstMissing;
  }

  lemma LockRowOk(db: Db, cl: Client, clock: nat, external: bool)
    requires CanRun(db, cl, external) && cl.pc == LockRow
    ensures StepOk(db, cl, DoLockRow(db, cl, clock, external), external)
  {
    hide StepOk, RowsOk, HeldShape;
    var t := cl.w.tid.value;
    if t !in db.transfers {
      ReturnOk(db, cl, cl, if cl.w.call.CallTransfer? then Internal else NotFound, external);
    } else {
      var status := db.transfers[t].status;
      if status == Pending {
        RowLocked(db, cl, clock, CountBooked, external);
      } else if cl.w.call.CallTransfer? {
        if status == Settled { ReturnOk(db, cl, cl, SuccessOf(external), external); }
        else { RestOk(db, cl, EndTx(cl, MarkFail), external); }
      } else if cl.w.call.CallSettle? {
        if status == Failed { ReturnOk(db, cl, cl, SettleOnFailed, external); }
        else { RowLocked(db, cl, clock, CommitTx, external); }
      } else {
        if status == Settled { ReturnOk(db, cl, cl, FailOnSettled, external); }
        else { RowLocked(db, cl, clock, CommitTx, external); }
      }
    }
  }

  lemma CountedOk(db: Db, cl: Client, pc: Pc, external: bool)
    requires CanRun(db, cl, external) && cl.pc == CountBooked
    requires var n := |EntriesFor(db, cl.w.tid.value)|;
             || (cl.w.call.CallTransfer? && n == 0 && pc == ReadAcc(0))
             || (cl.w.call.CallSettle? && n > 0 && pc == WriteRow)
             || (cl.w.call.CallFail? && pc == (if n == 0 then WriteRow else LockAcc(0)))
    ensures StepOk(db, cl, Stay(db, cl.(w := cl.w.(count := Some(|EntriesFor(db, cl.w.tid.value)|)), pc := pc)),
                   external)
  {
    NeedsHeld(db, cl, 0);
    hide RowsOk, Select, Needs, FirstMissing;
  }

  lemma CountBookedOk(db: Db, cl: Client, external: bool)
    requires CanRun(db, cl, external) && cl.pc == CountBooked
    ensures StepOk(db, cl, DoCountBooked(db, cl, external), external)
  {
    hide StepOk, RowsOk, HeldShape, Select, RowRead;
    var n := |EntriesFor(db, cl.w.tid.value)|;
    if cl.w.call.CallTransfer? {
      if n > 0 {
        ReturnOk(db, cl, cl, SuccessOf(external), external);
      } else {
        CountedOk(db, cl, ReadAcc(0), external);
      }
    } else if cl.w.call.CallSettle? {
      if n == 0 { ReturnOk(db, cl, cl, NotBooked, external); } else { CountedOk(db, cl, WriteRow, external); }
    } else if n == 0 {
      CountedOk(db, cl, WriteRow, external);
    } else {
      CountedOk(db, cl, LockAcc(0), external);
    }
  }

  // ------------------------------------------------------------------------------------------ accounts

  function Read(db: Db, w: Work, a: Id): Work
    requires a in db.accounts
  {
    w.(snap := w.snap[a := db.accounts[a]])
  }

  lemma LinkedRead(db: Db, w: Work, held: set<Lock>, a: Id)
    requires Linked(db, w, held) && a in db.accounts
    ensures Linked(db, Read(db, w, a), held)
  {
    hide Select;
  }

  /** The n-th account is read: what the snapshot holds then. */
  lemma ReadsMore(db: Db, w: Work, n: nat, a: Id)
    requires a in db.accounts && a == ReadAt(w, n)
    requires n < Width(w) && 0 <= db.accounts[a].balance <= MAX_INT64
    requires !w.call.CallFail? ==> db.accounts[a].status == Active
    requires if w.call.CallMutate? then w.snap == map[] else Reads(w, n)
    ensures Reads(Read(db, w, a), n + 1)
  {
  }

  lemma ReadOnOk(db: Db, cl: Client, n: nat, a: Id, pc: Pc, external: bool)
    requires CanRun(db, cl, external) && cl.pc == ReadAcc(n) && a == ReadAt(cl.w, n) && a in db.accounts
    requires db.accounts[a].status == Active && 0 <= db.accounts[a].balance <= MAX_INT64
    requires var w := Read(db, cl.w, a);
             || (pc == ReadAcc(1) && n == 0 && w.call.CallTransfer?)
             || (pc == UpdateAcc(0) && n == 1 && w.call.CallTransfer? && Amount(w) <= SnapBalance(w, From(w)))
             || (pc == UpdateAcc(0) && n == 0 && w.call.CallMutate? && 0 <= NewBalance(w, a))
    ensures StepOk(db, cl, Stay(db, cl.(w := Read(db, cl.w, a), pc := pc)), external)
  {
    hide Linked, Reads, RowsOk, NewBalance, FirstMissing, NextLock;
    NeedsHeld(db, cl, 0);
    hide Needs;
    LinkedRead(db, cl.w, cl.held, a);
    ReadsMore(db, cl.w, n, a);
  }

  lemma ReadAccOk(db: Db, cl: Client, n: nat, external: bool)
    requires CanRun(db, cl, external) && AccountsOk(db) && cl.pc == ReadAcc(n)
    ensures StepOk(db, cl, DoReadAcc(db, cl, n), external)
  {
    hide StepOk, RowsOk, HeldShape, Select, Reads, Net, Running, NewBalance, Counted;
    var a := ReadAt(cl.w, n);
    if a !in db.accounts || db.accounts[a].status != Active {
      if cl.w.call.CallMutate? {
        ReturnOk(db, cl, cl, if a !in db.accounts then NotFound else Invalid(false), external);
      }
      else { assert cl.w.tid.Some? by { ReadHasTid(cl, n); } RestOk(db, cl, EndTx(cl, MarkFail), external); }
    } else {
      assert AccountOk(db, a);
      var w := Read(db, cl.w, a);
      if cl.w.call.CallMutate? {
        if NewBalance(w, a) < 0 { ReturnOk(db, cl, cl.(w := w), Invalid(false), external); }
        else { ReadOnOk(db, cl, n, a, UpdateAcc(0), external); }
      } else if n == 0 {
        ReadOnOk(db, cl, n, a, ReadAcc(1), external);
      } else if SnapBalance(w, From(w)) < Amount(w) {
        assert cl.w.tid.Some? by { ReadHasTid(cl, n); }
        RestOk(db, cl, EndTx(cl, MarkFail), external);
      } else {
        ReadOnOk(db, cl, n, a, UpdateAcc(0), external);
      }
    }
  }

  lemma ReadHasTid(cl: Client, n: nat)
    requires ReadShape(cl, n) && !cl.w.call.CallMutate?
    ensures cl.w.tid.Some? && cl.w.call.CallTransfer?
  {
  }

  lemma LockOnOk(db: Db, cl: Client, n: nat, a: Id, pc: Pc, external: bool)
    requires CanRun(db, cl, external) && cl.pc == LockAcc(n) && a == ReadAt(cl.w, n) && a in db.accounts
    requires 0 <= db.accounts[a].balance <= MAX_INT64
    requires var w := Read(db, cl.w, a);
             || (pc == LockAcc(1) && n == 0)
             || (pc == UpdateAcc(0) && n == 1 && 0 <= NewBalance(w, To(w)))
    ensures StepOk(db, cl, Stay(db, cl.(w := Read(db, cl.w, a), pc := pc)), external)
  {
    hide Linked, Reads, RowsOk, NewBalance, FirstMissing, NextLock;
    NeedsHeld(db, cl, 0);
    assert Needs(db, cl)[1] == AccountRow(a);
    NeedsHeld(db, cl, 1);
    hide Needs;
    LinkedRead(db, cl.w, cl.held, a);
    ReadsMore(db, cl.w, n, a);
    assert RowsHeld(Read(db, cl.w, a), cl.held, n + 1);
    hide RowsHeld, ReadAt, From, To;
  }

  lemma LockAccOk(db: Db, cl: Client, n: nat, external: bool)
    requires CanRun(db, cl, external) && AccountsOk(db) && cl.pc == LockAcc(n)
    ensures StepOk(db, cl, DoLockAcc(db, cl, n), external)
  {
    hide StepOk, RowsOk, HeldShape, Select, Reads, Net, Running, NewBalance, Counted, RowsHeld;
    var a := ReadAt(cl.w, n);
    if a !in db.accounts {
      ReturnOk(db, cl, cl, Internal, external);
    } else {
      assert AccountOk(db, a);
      var w := Read(db, cl.w, a);
      if n == 0 {
        LockOnOk(db, cl, n, a, LockAcc(1), external);
      } else if NewBalance(w, To(w)) < 0 {
        ReturnOk(db, cl, cl.(w := w), Conflicted, external);
      } else {
        LockOnOk(db, cl, n, a, UpdateAcc(0), external);
      }
    }
  }

  // ------------------------------------------------------------------------------------------- updates

  lemma ConflictOk(db: Db, cl: Client, external: bool)
    requires RowsOk(db) && CallShape(cl) && cl.pc.UpdateAcc? && Remembers(db, cl.w)
    requires cl.w.call.CallTransfer? ==> cl.w.tid.Some?
    ensures StepOk(db, cl, DoConflict(db, cl), external)
  {
    hide StepOk, RowsOk, ParamsValid;
    var again := cl.attempt + 1;
    if cl.w.call.CallTransfer? && again < MAX_RETRIES {
      RestOk(db, cl, EndTx(cl, LockRow).(attempt := again), external);
    } else if cl.w.call.CallMutate? && again < MAX_RETRIES {
      RestOk(db, cl, EndTx(cl, ReadAcc(0)).(attempt := again), external);
    } else {
      var result := if cl.w.call.CallTransfer? || cl.w.call.CallMutate? then Conflicted else VersionConflict;
      ReturnOk(db, cl, cl, result, external);
    }
  }

  lemma UpdatesMore(w: Work, bal: map<Id, int>, n: nat, a: Id)
    requires a == UpdateAt(w, n) && n < Width(w) && Updated(w, bal, n) && 0 <= NewBalance(w, a)
    ensures Updated(w, bal[a := NewBalance(w, a)], n + 1)
  {
    hide NewBalance;
  }

  lemma UpdateReady(cl: Client, n: nat, a: Id)
    requires UpdateShape(cl, n) && a == UpdateAt(cl.w, n)
    ensures a in cl.w.snap && (cl.w.call.CallTransfer? ==> cl.w.tid.Some?)
  {
  }

  lemma UpdateOnOk(db: Db, cl: Client, n: nat, a: Id, external: bool)
    requires CanRun(db, cl, external) && cl.pc == UpdateAcc(n) && a == UpdateAt(cl.w, n)
    requires VersionMatches(db, cl.w, a) && 0 <= NewBalance(cl.w, a)
    ensures StepOk(db, cl, DoUpdateAcc(db, cl, n), external)
  {
    hide NewBalance, RowsOk, Ready, Updated, Linked, NewEntry;
    UpdateReady(cl, n, a);
    assert Needs(db, cl)[1] == AccountRow(a);
    NeedsHeld(db, cl, 1);
    UpdatesMore(cl.w, cl.bal, n, a);
    hide Needs, UpdateAt, FirstMissing, VersionMatches;
  }

  lemma UpdateAccOk(db: Db, cl: Client, n: nat, external: bool)
    requires CanRun(db, cl, external) && cl.pc == UpdateAcc(n)
    ensures StepOk(db, cl, DoUpdateAcc(db, cl, n), external)
  {
    hide StepOk, RowsOk, Updated, Ready, NewBalance, DoConflict, HeldShape;
    var a := UpdateAt(cl.w, n);
    UpdateReady(cl, n, a);
    if !VersionMatches(db, cl.w, a) {
      ConflictOk(db, cl, external);
    } else if NewBalance(cl.w, a) < 0 {
      ReturnOk(db, cl, cl, Internal, external);
    } else {
      UpdateOnOk(db, cl, n, a, external);
    }
  }

  lemma ReadyCall(w: Work, held: set<Lock>)
    requires Ready(w, held)
    ensures w.call.CallTransfer? || w.call.CallFail? || w.call.CallMutate?
  {
  }

  lemma AddEntryOk(db: Db, cl: Client, n: nat, external: bool)
    requires CanRun(db, cl, external) && cl.pc == AddEntry(n)
    ensures StepOk(db, cl, DoAddEntry(db, cl, n, external), external)
  {
    hide Linked, RowsOk, Ready, Updated, NewEntry;
    ReadyCall(cl.w, cl.held);
    assert cl.adds + [NewEntry(cl.w, n)] == NewEntries(cl.w, n + 1);
  }

  lemma WriteRowOk(db: Db, cl: Client, now: nat, external: bool)
    requires CanRun(db, cl, external) && cl.pc == WriteRow
    ensures StepOk(db, cl, DoWriteRow(db, cl, now), external)
  {
    hide Linked, RowsOk, Posted, Counted, Blank;
  }

  // ------------------------------------------------------------------------ single-statement transactions

  lemma MarkFailOk(db: Db, cl: Client, external: bool)
    requires CanRun(db, cl, external) && cl.pc == MarkFail
    ensures StepOk(db, cl, DoMarkFail(db, cl), external)
  {
    var t := cl.w.tid.value;
    if t in db.transfers {
      assert RowNeeds(db, cl.w.tid)[1] == TransferRow(t);
      NeedsHeld(db, cl, 1);
    }
    hide RowsOk, Needs, RowNeeds, FirstMissing;
  }

  lemma FetchOk(db: Db, cl: Client, external: bool)
    requires CanRun(db, cl, external) && cl.pc == Fetch
    ensures StepOk(db, cl, DoFetch(db, cl), external)
  {
    hide StepOk, RowsOk, HeldShape;
    ReturnOk(db, cl, cl, if cl.w.tid.value in db.transfers then Completed else NotFound, external);
  }

  lemma OpenOk(db: Db, cl: Client, newId: Id, external: bool)
    requires CanRun(db, cl, external) && cl.pc == OpenAcc && newId !in db.issued
    ensures StepOk(db, cl, DoOpen(db, cl, newId), external)
  {
    assert Guard(db, Open(newId));
    hide RowsOk;
  }

  lemma SetStatusOk(db: Db, cl: Client, external: bool)
    requires CanRun(db, cl, external) && cl.pc == WriteAccStatus
    ensures StepOk(db, cl, DoSetStatus(db, cl), external)
  {
    var a := cl.w.call.account;
    if a in db.accounts {
      assert Needs(db, cl)[1] == AccountRow(a);
      NeedsHeld(db, cl, 1);
    }
    hide RowsOk, Needs, FirstMissing;
  }

  lemma LockTablesOk(db: Db, cl: Client, external: bool)
    requires CanRun(db, cl, external) && cl.pc == LockTables
    ensures StepOk(db, cl, Stay(db, cl.(pc := TruncateAll)), external)
  {
    NeedsHeld(db, cl, 0);
    NeedsHeld(db, cl, 1);
    NeedsHeld(db, cl, 2);
    forall t ensures Exclusive(t) in cl.held {
      match t case Transfers => case Entries => case Accounts =>
    }
    hide RowsOk, Needs, FirstMissing;
  }

  lemma TruncateOk(db: Db, cl: Client, external: bool)
    requires CanRun(db, cl, external) && cl.pc == TruncateAll
    ensures StepOk(db, cl, DoTruncate(db, cl), external)
  {
    assert Exclusive(Transfers) in cl.held && Exclusive(Entries) in cl.held && Exclusive(Accounts) in cl.held;
    hide RowsOk;
  }
}
