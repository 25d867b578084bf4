/** What a run of the simulator leaves in the tables, call by call: the outcome a worker records is the state of its
    transfer. */
module RunAccounting {
  import opened Common
  import opened Ledger
  import opened Bank
  import opened BankLaws
  import opened History
  import opened Protocol
  import opened Invariant
  import opened Refinement
  import opened Steps
  import opened Keys
  import Blocking
  import Runner

  /** The call may be processed, and no other Transfer call ever carried its key. */
  predicate OwnKey(s: State, c: nat) { AloneWithKey(s, c) && ParamsValid(s.clients[c].w.call) }

  predicate Uses(s: State, d: nat, key: string) {
    d in s.clients && s.clients[d].w.call.CallTransfer? && s.clients[d].w.call.key == key
  }

  /** The call ended in CONFLICT, and left its transfer PENDING. */
  predicate LeftPending(cl: Client) { cl.w.call.CallTransfer? && cl.pc == Done(Conflicted) }

  /** The operation truncates nothing, and does not void a transfer that its call has left PENDING. */
  predicate Spared(op: Op, db: Db, cl: Client)
    requires cl.w.call.CallTransfer?
  {
    !op.Truncate? && (LeftPending(cl) && op.Void? && op.tid in db.transfers ==>
                        db.transfers[op.tid].key != cl.w.call.key)
  }

  predicate RowOfKey(db: Db, t: Id, key: string) { t in db.transfers && db.transfers[t].key == key }

  /** The row of the call's key, while nobody else touches it but to settle or reverse it. */
  predicate RowMatches(db: Db, cl: Client, t: Id)
    requires t in db.transfers
  {
    && RowFits(cl.w, db.transfers[t])
    && (cl.w.tid == Some(t) || (cl.w.tid == None && cl.outer > 0))
    && (Booked(db, t) ==> cl.pc.Done? && cl.pc.result.Accepted?)
    && (!Booked(db, t) && db.transfers[t].status == Failed && cl.pc.Done? ==>
          cl.pc.result == Invalid(true) || cl.pc.result == Internal)
  }

  ghost predicate RowsMatch(db: Db, cl: Client)
    requires cl.w.call.CallTransfer?
  {
    forall t :: RowOfKey(db, t, cl.w.call.key) ==> RowMatches(db, cl, t)
  }

  /** The client's transfer exists, in the state that its result tells. */
  predicate ResultTells(db: Db, cl: Client)
    requires cl.w.call.CallTransfer?
  {
    && (cl.w.tid.Some? ==> RowOfKey(db, cl.w.tid.value, cl.w.call.key))
    && (cl.pc.Done? && cl.pc.result.Accepted? ==> cl.w.tid.Some? && Booked(db, cl.w.tid.value))
    && (cl.pc == Done(Invalid(true)) ==>
          cl.w.tid.Some? && !Booked(db, cl.w.tid.value) && db.transfers[cl.w.tid.value].status == Failed)
    && (cl.pc == Done(Conflicted) ==> cl.w.tid.Some?)
    && (cl.pc.Done? ==>
          || cl.pc.result.Accepted? || cl.pc.result == Invalid(true)
          || cl.pc.result == Conflicted || cl.pc.result == Internal)
  }

  ghost predicate Accounted(db: Db, cl: Client) {
    cl.w.call.CallTransfer? && ParamsValid(cl.w.call) && RowsMatch(db, cl) && ResultTells(db, cl)
  }

  // ---------------------------------------------------------------------------------- steps of other clients

  /** What another client's operation may do to the rows of a key that is not its own. */
  predicate Harmless(db: Db, op: Op, cl: Client)
    requires cl.w.call.CallTransfer?
  {
    && !op.Truncate?
    && (op.Create? ==> op.row.key != cl.w.call.key)
    && (op.Book? || op.MarkFailed? ==> !RowOfKey(db, op.tid, cl.w.call.key))
    && (LeftPending(cl) && op.Void? ==> !RowOfKey(db, op.tid, cl.w.call.key))
  }

  /** A transfer without entries keeps its status, unless it is PENDING and voided. */
  lemma HarmlessKeepsRow(db: Db, op: Op, t: Id, cl: Client)
    requires DbInv(db) && Guard(db, op) && cl.w.call.CallTransfer? && Harmless(db, op, cl)
             && t in Exec(db, op).transfers
    ensures var key := cl.w.call.key;
            && (RowOfKey(Exec(db, op), t, key) <==> RowOfKey(db, t, key))
            && (RowOfKey(db, t, key) ==>
                  && SameTransfer(db.transfers[t], Exec(db, op).transfers[t])
                  && (Booked(Exec(db, op), t) <==> Booked(db, t))
                  && (!Booked(db, t) ==> Exec(db, op).transfers[t].status == db.transfers[t].status
                                         || (!LeftPending(cl) && db.transfers[t].status == Pending
                                             && Exec(db, op).transfers[t].status == Failed)))
  {
    if !Concerns(op, t) {
      ExecOtherTransfer(db, op, t);
    } else if op.Reverse? {
      ExecReverseEffect(db, op);
    }
  }

  lemma HarmlessKeepsAccounted(db: Db, op: Op, cl: Client)
    requires DbInv(db) && Guard(db, op) && Accounted(db, cl) && Harmless(db, op, cl)
    ensures Accounted(Exec(db, op), cl)
  {
    var db', key := Exec(db, op), cl.w.call.key;
    assert !op.Truncate?;
    HarmlessGrows(db, op);
    hide DbInv, Exec, Guard, Harmless, Booked, RowFits;
    forall t | RowOfKey(db', t, key) ensures RowMatches(db', cl, t) {
      HarmlessKeepsRow(db, op, t, cl);
      assert RowMatches(db, cl, t);
      assert RowFits(cl.w, db'.transfers[t]) by { FitsSame(cl.w, db.transfers[t], db'.transfers[t]); }
    }
    if cl.w.tid.Some? { HarmlessKeepsRow(db, op, cl.w.tid.value, cl); }
  }

  lemma FitsSame(w: Work, row: Transfer, row': Transfer)
    requires RowFits(w, row) && SameTransfer(row, row')
    ensures RowFits(w, row')
  {
  }

  lemma HarmlessGrows(db: Db, op: Op)
    requires DbInv(db) && Guard(db, op) && !op.Truncate?
    ensures db.transfers.Keys <= Exec(db, op).transfers.Keys
  {
    ExecRows(db, op);
    hide Exec;
  }

  // -------------------------------------------------------------------------------------- the client's own steps

  lemma RowIsOpen(db: Db, cl: Client, t: Id)
    requires BookingsOk(db) && Accounted(db, cl) && !cl.pc.Done? && RowOfKey(db, t, cl.w.call.key)
    ensures db.transfers[t].status != Settled && !Booked(db, t) && RowFits(cl.w, db.transfers[t])
  {
    assert RowMatches(db, cl, t) && BookingOk(db, t);
    hide RowFits;
  }

  /** A step that commits nothing and comes to no result that speaks of a transfer. */
  predicate QuietMove(cl: Client, cl': Client) {
    && cl'.w.call == cl.w.call
    && ((cl'.w.tid == cl.w.tid && cl'.outer == cl.outer) || (cl'.w.tid == None && cl'.outer > 0))
    && (cl'.pc.Done? ==>
          cl'.pc.result == Internal || (cl'.pc.result == Conflicted && cl'.w.tid.Some? && cl.pc.UpdateAcc?))
  }

  /** Once it updates accounts a call has its transfer locked, and has read it PENDING. */
  lemma UpdatesPending(db: Db, cl: Client, external: bool)
    requires Shape(cl, external) && Linked(db, cl.w, cl.held) && Accounted(db, cl) && cl.pc.UpdateAcc?
    ensures forall t :: RowOfKey(db, t, cl.w.call.key) ==> db.transfers[t].status == Pending
  {
    assert cl.w.tid.Some? && cl.w.tid.value in db.transfers && db.transfers[cl.w.tid.value].status == Pending by {
      hide HeldShape, CallShape, Updated, Reads, RowsHeld, NewBalance, Accounted;
    }
    hide Shape, Linked, Booked, RowFits;
    forall t | RowOfKey(db, t, cl.w.call.key) ensures db.transfers[t].status == Pending {
      assert RowMatches(db, cl, t);
    }
  }

  lemma QuietKeepsAccounted(db: Db, cl: Client, cl': Client)
    requires BookingsOk(db) && Accounted(db, cl) && !cl.pc.Done? && QuietMove(cl, cl')
    requires cl'.pc == Done(Conflicted) ==> forall t :: RowOfKey(db, t, cl.w.call.key) ==>
               db.transfers[t].status == Pending
    ensures Accounted(db, cl')
  {
    forall t | RowOfKey(db, t, cl'.w.call.key) ensures RowMatches(db, cl', t) {
      assert RowMatches(db, cl, t);
      RowIsOpen(db, cl, t);
    }
    hide Booked, RowFits;
  }

  lemma QuietValidate(db: Db, cl: Client)
    requires cl.pc.Validate? && ParamsValid(cl.w.call)
    ensures DoValidate(db, cl).log == None && DoValidate(db, cl).db == db && QuietMove(cl, DoValidate(db, cl).cl)
  {
    hide ParamsValid;
  }

  lemma QuietInsert(db: Db, cl: Client, newId: Id, now: nat)
    requires cl.pc.Insert? && cl.w.call.CallTransfer? && DoInsert(db, cl, newId, now).log == None
    ensures DoInsert(db, cl, newId, now).db == db && QuietMove(cl, DoInsert(db, cl, newId, now).cl)
  {
    hide KeyTaken;
  }

  lemma QuietLock(db: Db, cl: Client, clock: nat, external: bool)
    requires cl.pc.LockRow? && cl.w.call.CallTransfer? && cl.w.tid.Some?
    requires cl.w.tid.value in db.transfers && db.transfers[cl.w.tid.value].status != Settled
    ensures var out := DoLockRow(db, cl, clock, external); out.log == None && out.db == db && QuietMove(cl, out.cl)
  {
  }

  lemma QuietCount(db: Db, cl: Client, external: bool)
    requires cl.pc.CountBooked? && cl.w.call.CallTransfer? && cl.w.tid.Some? && !Booked(db, cl.w.tid.value)
    ensures var out := DoCountBooked(db, cl, external); out.log == None && out.db == db && QuietMove(cl, out.cl)
  {
    hide Select;
  }

  lemma QuietAccounts(db: Db, cl: Client, n: nat, external: bool)
    requires cl.w.call.CallTransfer?
    ensures cl.pc == ReadAcc(n) ==>
              && DoReadAcc(db, cl, n).log == None && DoReadAcc(db, cl, n).db == db
              && QuietMove(cl, DoReadAcc(db, cl, n).cl)
    ensures cl.pc == UpdateAcc(n) && cl.w.tid.Some? ==>
              DoUpdateAcc(db, cl, n).log == None && DoUpdateAcc(db, cl, n).db == db
              && QuietMove(cl, DoUpdateAcc(db, cl, n).cl)
    ensures cl.pc == AddEntry(n) ==>
              && DoAddEntry(db, cl, n, external).log == None && DoAddEntry(db, cl, n, external).db == db
              && QuietMove(cl, DoAddEntry(db, cl, n, external).cl)
  {
    hide NewBalance, VersionMatches, NewEntry, ReadAt, UpdateAt;
  }

  lemma QuietWrite(db: Db, cl: Client, now: nat)
    requires cl.pc.WriteRow? && cl.w.call.CallTransfer?
    ensures DoWriteRow(db, cl, now).log == None && DoWriteRow(db, cl, now).db == db
            && QuietMove(cl, DoWriteRow(db, cl, now).cl)
  {
  }

  /** Find comes upon the client's own row, and never upon a foreign one. */
  lemma FindKeepsAccounted(db: Db, cl: Client)
    requires BookingsOk(db) && KeysUnique(db) && Accounted(db, cl) && cl.pc.Find?
    ensures DoFind(db, cl).log == None && DoFind(db, cl).db == db && Accounted(db, DoFind(db, cl).cl)
  {
    var key := cl.w.call.key;
    if KeyTaken(db, key) {
      var t := ByKey(db, key);
      assert RowOfKey(db, t, key);
      RowIsOpen(db, cl, t);
      var cl' := DoFind(db, cl).cl;
      assert cl'.w.call == cl.w.call && cl'.w.tid == Some(t);
      assert if db.transfers[t].status == Failed then cl'.pc == Done(Invalid(true)) else cl'.pc == LockRow;
      hide Booked, KeyTaken, BookingsOk, DoFind;
      forall u | RowOfKey(db, u, key) ensures RowMatches(db, cl', u) {
        assert u == t && RowMatches(db, cl, u);
      }
    } else {
      hide Booked, RowFits, BookingsOk, KeysUnique;
    }
  }

  lemma InsertEffect(db: Db, cl: Client, newId: Id, now: nat)
    requires EntriesOk(db) && cl.pc.Insert? && cl.w.call.CallTransfer?
    requires DoInsert(db, cl, newId, now).log.Some? && newId !in db.transfers
    ensures var out := DoInsert(db, cl, newId, now);
            && out.cl.w.tid == Some(newId) && out.cl.pc == LockRow && out.cl.w.call == cl.w.call
            && out.db.transfers == db.transfers[newId := RowOf(cl.w.call, now)]
            && !Booked(out.db, newId) && !KeyTaken(db, cl.w.call.key)
  {
    UnknownHasNoEntries(db, OfTransfer(newId));
    hide EntriesOk, Select, KeyTaken;
  }

  lemma CreateKeepsAccounted(db: Db, cl: Client, newId: Id, now: nat)
    requires DbInv(db) && Accounted(db, cl) && cl.pc.Insert?
    requires newId !in db.issued && DoInsert(db, cl, newId, now).log.Some?
    ensures Accounted(DoInsert(db, cl, newId, now).db, DoInsert(db, cl, newId, now).cl)
  {
    var out, key := DoInsert(db, cl, newId, now), cl.w.call.key;
    assert newId !in db.transfers && ParamsValid(cl.w.call);
    InsertEffect(db, cl, newId, now);
    hide DoInsert, DbInv, Booked, ParamsValid, Accounted;
    assert forall t :: RowOfKey(db, t, key) ==> KeyTaken(db, key);
    hide KeyTaken;
    assert RowMatches(out.db, out.cl, newId);
    OnlyRow(out.db, out.cl, newId);
  }

  lemma OnlyRow(db: Db, cl: Client, t: Id)
    requires ParamsValid(cl.w.call) && cl.w.tid == Some(t) && !cl.pc.Done?
    requires RowOfKey(db, t, cl.w.call.key) && RowMatches(db, cl, t)
    requires forall u :: RowOfKey(db, u, cl.w.call.key) ==> u == t
    ensures Accounted(db, cl)
  {
    hide Booked, RowFits;
  }

  lemma CommitKeepsAccounted(db: Db, cl: Client, external: bool)
    requires DbInv(db) && Accounted(db, cl) && cl.pc.CommitTx? && cl.w.tid.Some?
    requires var op := CommittedOp(cl);
             op.Some? && Guard(db, op.value) && DoCommit(db, cl, external).db == Exec(db, op.value)
    ensures Accounted(DoCommit(db, cl, external).db, DoCommit(db, cl, external).cl)
  {
    var op := CommittedOp(cl).value;
    assert op.Book? && cl.w.tid == Some(op.tid);
    assert DoCommit(db, cl, external).cl == EndTx(cl, Done(SuccessOf(external)));
    hide DoCommit, Exec, DbInv, CommittedOp, Guard, Accounted, EndTx;
    BookKeepsAccounted(db, cl, op, SuccessOf(external));
  }

  lemma BookKeepsAccounted(db: Db, cl: Client, op: Op, result: Result)
    requires DbInv(db) && Accounted(db, cl) && op.Book? && cl.w.tid == Some(op.tid) && Guard(db, op) && result.Accepted?
    ensures Accounted(Exec(db, op), EndTx(cl, Done(result)))
  {
    assert RowsOk(db);
    hide Exec, DbInv, RowsOk, Guard, Booked, RowIs, ParamsValid, RowFits;
    var db', cl', key := Exec(db, op), EndTx(cl, Done(result)), cl.w.call.key;
    BookedRow(db, op);
    SameFits(cl.w, cl'.w);
    forall u | RowOfKey(db', u, key) ensures RowMatches(db', cl', u) {
      assert RowOfKey(db, u, key) && RowMatches(db, cl, u);
    }
  }

  lemma SameFits(w: Work, w': Work)
    requires w'.call == w.call
    ensures forall row, status :: RowFits(w, row) ==> RowFits(w', row.(status := status))
  {
  }

  lemma BookedRow(db: Db, op: Op)
    requires DbInv(db) && Guard(db, op) && op.Book?
    ensures op.tid in db.transfers && Booked(Exec(db, op), op.tid)
    ensures exists status :: Exec(db, op).transfers == db.transfers[op.tid := db.transfers[op.tid].(status := status)]
  {
    ExecBookEffect(db, op);
  }

  lemma MarkKeepsAccounted(db: Db, cl: Client)
    requires BookingsOk(db) && Accounted(db, cl) && cl.pc.MarkFail? && cl.w.tid.Some?
    ensures Accounted(DoMarkFail(db, cl).db, DoMarkFail(db, cl).cl)
  {
    var t, key := cl.w.tid.value, cl.w.call.key;
    RowIsOpen(db, cl, t);
    var db', cl' := DoMarkFail(db, cl).db, DoMarkFail(db, cl).cl;
    assert db' == SetTransferStatus(db, t, Failed) && cl' == EndTx(cl, Done(Invalid(true)));
    hide DoMarkFail, Select, BookingsOk;
    forall u | RowOfKey(db', u, key) ensures RowMatches(db', cl', u) {
      assert RowOfKey(db, u, key) && RowMatches(db, cl, u);
    }
  }

  lemma TransferStands(db: Db, cl: Client, external: bool)
    requires Shape(cl, external) && Linked(db, cl.w, cl.held) && cl.w.call.CallTransfer? && !cl.pc.Done?
    ensures cl.pc.Validate? || cl.pc.Insert? || cl.pc.Find? || cl.pc.LockRow? || cl.pc.CountBooked? || cl.pc.ReadAcc?
            || cl.pc.UpdateAcc? || cl.pc.AddEntry? || cl.pc.WriteRow? || cl.pc.CommitTx? || cl.pc.MarkFail?
    ensures Typed(cl) && (cl.pc.UpdateAcc? || cl.pc.CommitTx? || cl.pc.MarkFail? ==> cl.w.tid.Some?)
  {
    hide HeldShape, CallShape, Linked, Updated, Reads, RowsHeld, NewEntries, NewBalance;
  }

  lemma OwnStatement(db: Db, cl: Client, newId: Id, now: nat, clock: nat, external: bool, out: Out)
    requires DbInv(db) && Accounted(db, cl) && !cl.pc.Done? && newId !in db.issued
    requires Shape(cl, external) && Linked(db, cl.w, cl.held) && Typed(cl)
    requires out == DoStatement(db, cl, newId, now, clock, external)
    requires out.log.Some? ==> Guard(db, out.log.value) && out.db == Exec(db, out.log.value)
    ensures Accounted(out.db, out.cl)
  {
    hide Shape, Linked, DbInv, Accounted, Exec, Guard, DoStatement, DoCommit, DoMarkFail, BookingsOk, Typed;
    TransferStands(db, cl, external) by { AccountedCall(db, cl); }
    if (cl.pc.Insert? && out.log.Some?) || cl.pc.Find? {
      OwnRow(db, cl, newId, now, clock, external, out);
    } else if cl.pc.CommitTx? {
      WhichStatement(db, cl, newId, now, clock, external);
      OwnCommit(db, cl, external, out);
    } else if cl.pc.MarkFail? {
      WhichStatement(db, cl, newId, now, clock, external);
      BookingsAreOk(db);
      MarkKeepsAccounted(db, cl);
    } else {
      BookingsAreOk(db);
      QuietStatement(db, cl, newId, now, clock, external, out);
      if cl.pc.UpdateAcc? { UpdatesPending(db, cl, external); }
      QuietKeepsAccounted(db, cl, out.cl);
    }
  }

  lemma AccountedCall(db: Db, cl: Client)
    requires Accounted(db, cl)
    ensures cl.w.call.CallTransfer? && (cl.w.tid.Some? ==> cl.w.tid.value in db.transfers)
  {
    hide RowMatches, Booked, ParamsValid;
  }

  /** The statements by which the call comes to its row. */
  lemma OwnRow(db: Db, cl: Client, newId: Id, now: nat, clock: nat, external: bool, out: Out)
    requires DbInv(db) && Accounted(db, cl) && newId !in db.issued && Typed(cl)
    requires out == DoStatement(db, cl, newId, now, clock, external)
    requires (cl.pc.Insert? && out.log.Some?) || cl.pc.Find?
    ensures Accounted(out.db, out.cl)
  {
    hide Accounted, BookingOk, RowsOk, AccountsOk, EntriesOk, BookingsOk, KeysUnique, DoInsert, DoFind, Continues;
    if cl.pc.Insert? { CreateKeepsAccounted(db, cl, newId, now); } else { FindKeepsAccounted(db, cl); }
  }

  lemma OwnCommit(db: Db, cl: Client, external: bool, out: Out)
    requires DbInv(db) && Accounted(db, cl) && cl.pc.CommitTx? && cl.w.tid.Some? && out == DoCommit(db, cl, external)
    requires out.log.Some? ==> Guard(db, out.log.value) && out.db == Exec(db, out.log.value)
    ensures Accounted(out.db, out.cl)
  {
    hide Accounted, DbInv, Guard, Exec, DoCommit, CommittedOp;
    AccountedCall(db, cl);
    CommitIsBook(db, cl, external);
    CommitKeepsAccounted(db, cl, external);
  }

  lemma WhichStatement(db: Db, cl: Client, newId: Id, now: nat, clock: nat, external: bool)
    requires Typed(cl)
    ensures cl.pc.CommitTx? ==> DoStatement(db, cl, newId, now, clock, external) == DoCommit(db, cl, external)
    ensures cl.pc.MarkFail? ==> DoStatement(db, cl, newId, now, clock, external) == DoMarkFail(db, cl)
  {
    hide DoCommit, DoMarkFail;
  }

  lemma CommitIsBook(db: Db, cl: Client, external: bool)
    requires cl.w.call.CallTransfer? && cl.w.tid.Some?
    ensures DoCommit(db, cl, external).log == CommittedOp(cl) && CommittedOp(cl).Some?
  {
    hide Publish;
  }

  lemma QuietStatement(db: Db, cl: Client, newId: Id, now: nat, clock: nat, external: bool, out: Out)
    requires BookingsOk(db) && Accounted(db, cl) && Typed(cl) && out == DoStatement(db, cl, newId, now, clock, external)
    requires cl.pc.Validate? || cl.pc.LockRow? || cl.pc.CountBooked? || cl.pc.ReadAcc? || cl.pc.UpdateAcc?
             || cl.pc.AddEntry?
             || cl.pc.WriteRow? || (cl.pc.Insert? && out.log == None)
    requires cl.pc.UpdateAcc? ==> cl.w.tid.Some?
    ensures out.log == None && out.db == db && QuietMove(cl, out.cl)
  {
    assert cl.w.call.CallTransfer? && ParamsValid(cl.w.call);
    if cl.pc.LockRow? || cl.pc.CountBooked? { AtOwnRow(db, cl); }
    hide Accounted, BookingsOk, QuietMove, Booked;
    hide DoValidate, DoInsert, DoLockRow, DoCountBooked, DoReadAcc;
    hide DoUpdateAcc, DoAddEntry, DoWriteRow, Continues, ParamsValid;
    match cl.pc {
      case Validate => QuietValidate(db, cl);
      case Insert => QuietInsert(db, cl, newId, now);
      case LockRow => QuietLock(db, cl, clock, external);
      case CountBooked => QuietCount(db, cl, external);
      case ReadAcc(n) => QuietAccounts(db, cl, n, external);
      case UpdateAcc(n) => QuietAccounts(db, cl, n, external);
      case AddEntry(n) => QuietAccounts(db, cl, n, external);
      case WriteRow => QuietWrite(db, cl, now);
    }
  }

  lemma AtOwnRow(db: Db, cl: Client)
    requires BookingsOk(db) && Accounted(db, cl) && cl.w.tid.Some? && !cl.pc.Done?
    ensures cl.w.tid.value in db.transfers && db.transfers[cl.w.tid.value].status != Settled
            && !Booked(db, cl.w.tid.value)
  {
    RowIsOpen(db, cl, cl.w.tid.value);
  }

  // ------------------------------------------------------------------------------------------------- whole runs

  /** An operation that some other client commits cannot touch the row of a key that is not its own. */
  lemma OthersAreHarmless(s: State, c: nat, d: nat, op: Op)
    requires Inv(s) && DbInv(s.db) && OwnKey(s, c) && d in s.clients && d != c && Origin(s, d, op)
    requires Spared(op, s.db, s.clients[c])
    ensures Harmless(s.db, op, s.clients[c])
  {
    var cl := s.clients[d];
    assert ClientOk(s, cl);
    LinkedRemembers(s.db, cl.w, cl.held);
    hide Inv, Shape, Linked, DbInv;
  }

  lemma OwnKeyBefore(s: State, e: Event, c: nat)
    requires Enabled(s, e) && OwnKey(Apply(s, e), c) && c in s.clients
    ensures OwnKey(s, c) && Apply(s, e).clients[c].w.call == s.clients[c].w.call
  {
    ClientsStay(s, e);
    hide Apply, Enabled, ParamsValid;
  }

  lemma SparedBefore(db: Db, op: Op, past: Op, cl: Client, cl': Client)
    requires DbInv(db) && Guard(db, op) && !op.Truncate? && cl.w.call.CallTransfer? && cl'.w.call == cl.w.call
    requires Spared(past, Exec(db, op), cl') && (LeftPending(cl) ==> LeftPending(cl'))
    ensures Spared(past, db, cl)
  {
    ExecRows(db, op);
    hide Exec;
  }

  /** A call that is over stays as it is. */
  lemma OverStays(s: State, e: Event, c: nat)
    requires Enabled(s, e) && c in s.clients && s.clients[c].pc.Done?
    ensures c in Apply(s, e).clients && Apply(s, e).clients[c] == s.clients[c]
  {
    ClientsStay(s, e);
    if c == e.client { DoneNeedsNothing(s.db, s.clients[c]); }
    hide DoStatement, NextLock, Free, Typed;
  }

  lemma BeginAccounted(s: State, c: nat, call: Call)
    requires RowsHaveCallers(s) && c !in s.clients && OwnKey(Put(s, c, StartOf(call, |s.history|)), c)
    ensures Accounted(s.db, StartOf(call, |s.history|))
  {
    var s' := Put(s, c, StartOf(call, |s.history|));
    forall t | t in s.db.transfers ensures s.db.transfers[t].key != call.key {
      var d :| Carries(s, d, s.db.transfers[t]);
      assert d in s'.clients && d != c && s'.clients[d] == s.clients[d];
    }
  }

  lemma StepKeepsAccounted(s: State, e: Event, c: nat)
    requires Inv(s) && Enabled(s, e) && c in s.clients && OwnKey(s, c) && Accounted(s.db, s.clients[c])
    requires s.clients[c].w.call.CallTransfer?
    requires (e == Abort(c) ==> s.clients[c].pc != MarkFail)
             && (OpOf(s, e).Some? ==> Spared(OpOf(s, e).value, s.db, s.clients[c]))
    ensures Accounted(Apply(s, e).db, Apply(s, e).clients[c])
  {
    StepCommits(s, e);
    ClientsStay(s, e);
    if OpOf(s, e).Some? { OriginOf(s, e, OpOf(s, e).value); }
    if e.client != c {
      hide Apply, Enabled, Inv, OpOf, Accounted, OwnKey, Spared, Guard, Exec, DbInv;
      if OpOf(s, e).Some? {
        OthersAreHarmless(s, c, e.client, OpOf(s, e).value);
        HarmlessKeepsAccounted(s.db, OpOf(s, e).value, s.clients[c]);
      }
    } else {
      hide Accounted, Spared, Guard, Exec, DbInv;
      OwnEvent(s, e, c);
    }
  }

  lemma OwnEvent(s: State, e: Event, c: nat)
    requires Inv(s) && DbInv(s.db) && Enabled(s, e) && c in s.clients && Accounted(s.db, s.clients[c])
    requires e.client == c && (e == Abort(c) ==> s.clients[c].pc != MarkFail) && StepIs(s, c, OpOf(s, e), Apply(s, e))
    ensures Accounted(Apply(s, e).db, Apply(s, e).clients[c])
  {
    var cl := s.clients[c];
    assert ClientOk(s, cl);
    hide Inv, DbInv, Guard, Exec, Shape, Linked, DoStatement, NextLock, Typed, Free;
    match e {
      case Do(_, newId, now) =>
        OwnStatement(s.db, cl, newId, now, |s.history|, s.external,
                     DoStatement(s.db, cl, newId, now, |s.history|, s.external));
      case Acquire(_) =>
        SameAccounted(s.db, cl, cl.(held := cl.held + {NextLock(s.db, cl).value}));
      case LockFail(_) =>
        LockFailIsReset(cl, s.external);
      case Abort(_) =>
        assert BookingsOk(s.db) by { BookingsAreOk(s.db); }
        QuietKeepsAccounted(s.db, cl, Aborted(cl));
    }
  }

  lemma BookingsAreOk(db: Db)
    requires DbInv(db)
    ensures BookingsOk(db)
  {
    hide BookingsOk, EntriesOk, AccountsOk, RowsOk;
  }

  lemma SameAccounted(db: Db, cl: Client, cl': Client)
    requires Accounted(db, cl) && cl' == cl.(held := cl'.held)
    ensures Accounted(db, cl')
  {
    hide Booked, RowFits, ParamsValid;
    forall t | RowOfKey(db, t, cl'.w.call.key) ensures RowMatches(db, cl', t) {
      assert RowMatches(db, cl, t);
    }
  }

  lemma LockFailIsReset(cl: Client, external: bool)
    requires Shape(cl, external) && cl.pc == LockTables
    ensures cl.w.call.CallReset?
  {
    hide CallShape, HeldShape;
  }

  /** The database never failed client c while it marked its transfer FAILED. No caller is told of that error. */
  ghost predicate MarkKept(external: bool, es: seq<Event>, c: nat) {
    forall i :: 0 <= i < |es| ==> !LosesMark(StateAfter(external, es[..i]), es[i], c)
  }

  predicate LosesMark(s: State, e: Event, c: nat) { e == Abort(c) && c in s.clients && s.clients[c].pc == MarkFail }

  lemma MarkKeptBefore(external: bool, es: seq<Event>, c: nat)
    requires es != [] && MarkKept(external, es, c)
    ensures MarkKept(external, es[..|es| - 1], c)
    ensures !LosesMark(StateAfter(external, es[..|es| - 1]), es[|es| - 1], c)
  {
    hide StateAfter, LosesMark;
    var before := es[..|es| - 1];
    forall i | 0 <= i < |before| ensures !LosesMark(StateAfter(external, before[..i]), before[i], c) {
      assert before[..i] == es[..i] && before[i] == es[i];
    }
  }

  /** Since the call began nobody truncated the tables, and nobody voided its transfer if the call has left it PENDING.
      A transfer that is voided before the call ends does no harm: the call then finds it FAILED, and says so. */
  ghost predicate LeftAloneSoFar(s: State, c: nat)
    requires c in s.clients && s.clients[c].w.call.CallTransfer?
  {
    var cl := s.clients[c];
    forall i :: cl.begun <= i < |s.history| ==> Spared(s.history[i].op, s.db, cl)
  }

  /** A Transfer call that alone used its key, whose FAILED mark was not lost, and that nobody truncated away since it
      began: its result tells the state of its transfer, whatever happened before and beside it, unless it ended in
      CONFLICT and its transfer was voided. */
  lemma {:induction false} ResultsTellTransfers(external: bool, es: seq<Event>, c: nat)
    requires ValidRun(external, es) && OwnKey(StateAfter(external, es), c) && MarkKept(external, es, c)
    requires LeftAloneSoFar(StateAfter(external, es), c)
    ensures Accounted(StateAfter(external, es).db, StateAfter(external, es).clients[c])
  {
    hide Enabled, Apply, Inv, OwnKey, LeftAloneSoFar, Accounted, RowsHaveCallers, Spared, MarkKept;
    OwnKeyIn(StateAfter(external, es), c);
    if es != [] {
      var s, e := LastStep(external, es);
      if c in s.clients {
        OwnKeyBefore(s, e, c);
        OwnKeyIn(s, c);
        BegunBefore(external, es[..|es| - 1], c);
        LeftAloneStep(s, e, c);
        MarkKeptBefore(external, es, c);
        ResultsTellTransfers(external, es[..|es| - 1], c);
        StepKeepsAccounted(s, e, c);
      } else {
        RowsHaveCallersAlways(external, es[..|es| - 1]);
        BeginsHere(s, e, c);
      }
    }
  }

  lemma LeftAloneStep(s: State, e: Event, c: nat)
    requires Inv(s) && Enabled(s, e) && c in s.clients && s.clients[c].w.call.CallTransfer?
             && s.clients[c].begun <= |s.history|
    requires c in Apply(s, e).clients && Apply(s, e).clients[c].w.call.CallTransfer? && LeftAloneSoFar(Apply(s, e), c)
    ensures LeftAloneSoFar(s, c)
    ensures OpOf(s, e).Some? ==> Spared(OpOf(s, e).value, s.db, s.clients[c])
  {
    hide OpOf, DbInv, Guard, Exec, DoStatement, NextLock, Typed, Free, Spared;
    ClientsStay(s, e);
    StepCommits(s, e);
    if s.clients[c].pc.Done? { OverStays(s, e, c); }
    hide Inv, Enabled, Apply;
    LeftAloneBefore(s, e.client, OpOf(s, e), Apply(s, e), c);
  }

  lemma LeftAloneBefore(s: State, d: nat, op: Option<Op>, s': State, c: nat)
    requires DbInv(s.db) && StepIs(s, d, op, s') && c in s.clients && c in s'.clients
    requires s.clients[c].w.call.CallTransfer? && s'.clients[c].w.call == s.clients[c].w.call
    requires s'.clients[c].begun == s.clients[c].begun <= |s.history|
    requires s.clients[c].pc.Done? ==> s'.clients[c] == s.clients[c]
    requires LeftAloneSoFar(s', c)
    ensures LeftAloneSoFar(s, c) && (op.Some? ==> Spared(op.value, s.db, s.clients[c]))
  {
    hide DbInv, Guard, Exec, Spared;
    var cl, cl' := s.clients[c], s'.clients[c];
    if op.Some? {
      assert s'.history[|s.history|].op == op.value && Spared(op.value, s'.db, cl');
      assert !op.value.Truncate? by { SparesTables(op.value, s'.db, cl'); }
      SparedBefore(s.db, op.value, op.value, cl, cl');
      forall i | cl.begun <= i < |s.history| ensures Spared(s.history[i].op, s.db, cl) {
        assert s'.history[i] == s.history[i] && Spared(s'.history[i].op, s'.db, cl');
        SparedBefore(s.db, op.value, s.history[i].op, cl, cl');
      }
    } else {
      forall i | cl.begun <= i < |s.history| ensures Spared(s.history[i].op, s.db, cl) {
        assert s'.history[i] == s.history[i] && Spared(s'.history[i].op, s'.db, cl');
        SameSpared(s.history[i].op, s.db, cl, cl');
      }
    }
  }

  lemma SparesTables(op: Op, db: Db, cl: Client)
    requires cl.w.call.CallTransfer? && Spared(op, db, cl)
    ensures !op.Truncate?
  {
  }

  lemma SameSpared(op: Op, db: Db, cl: Client, cl': Client)
    requires cl.w.call.CallTransfer? && cl'.w.call == cl.w.call && (cl.pc.Done? ==> cl' == cl) && Spared(op, db, cl')
    ensures Spared(op, db, cl)
  {
  }

  lemma BegunBefore(external: bool, es: seq<Event>, c: nat)
    requires ValidRun(external, es) && c in StateAfter(external, es).clients
    ensures StateAfter(external, es).clients[c].begun <= |StateAfter(external, es).history|
  {
    Blocking.AllCountAlways(external, es);
    hide StateAfter, ValidRun;
  }

  lemma OwnKeyIn(s: State, c: nat)
    requires OwnKey(s, c)
    ensures c in s.clients && s.clients[c].w.call.CallTransfer?
  {
  }

  lemma BeginsHere(s: State, e: Event, c: nat)
    requires Enabled(s, e) && RowsHaveCallers(s) && c !in s.clients && OwnKey(Apply(s, e), c)
    ensures Accounted(Apply(s, e).db, Apply(s, e).clients[c])
  {
    ClientsStay(s, e);
    assert e.Begin? && e.client == c;
    hide RowsHaveCallers, Accounted, OwnKey, StartOf, NextLock, DoStatement;
    BeginAccounted(s, c, e.call);
  }

  // ------------------------------------------------------------------------------------- the counters of a run

  /** How a worker records what Transfer returned. */
  function Classify(result: Result): Runner.Outcome {
    match result
    case Accepted(_) => Runner.Accepted
    case Invalid(failed) => if failed then Runner.RejectedInsufficient else Runner.Errors
    case Conflicted => Runner.ConflictExhausted
    case _ => Runner.Errors
  }

  function Image(ns: set<nat>, f: map<nat, Id>): set<Id> { set n | n in ns && n in f :: f[n] }

  lemma {:induction false} ImageCount(ns: set<nat>, f: map<nat, Id>)
    requires ns <= f.Keys && forall m, n :: m in f && n in f && f[m] == f[n] ==> m == n
    ensures |Image(ns, f)| == |ns|
  {
    if ns != {} {
      var n :| n in ns;
      ImageCount(ns - {n}, f);
      assert Image(ns, f) == Image(ns - {n}, f) + {f[n]} && f[n] !in Image(ns - {n}, f);
    }
  }

  /** A call of the run: over, alone with its key, its FAILED mark not lost, and its transfer left alone. */
  ghost predicate GoodCall(s: State, es: seq<Event>, c: nat) {
    && OwnKey(s, c) && MarkKept(s.external, es, c) && LeftAloneSoFar(s, c) && s.clients[c].pc.Done?
  }

  /** The calls that the jobs of a run made, one each, and the outcomes recorded for them. */
  ghost predicate JobsMade(s: State, es: seq<Event>, calls: map<nat, nat>, outcomes: map<nat, Runner.Outcome>) {
    && calls.Keys == outcomes.Keys
    && (forall m, n :: m in calls && n in calls && calls[m] == calls[n] ==> m == n)
    && (forall n :: n in calls ==> GoodCall(s, es, calls[n]) && outcomes[n] == Classify(s.clients[calls[n]].pc.result))
    && (forall n :: n in calls ==> outcomes[n] != Runner.Errors)
  }

  /** Whether the row of transfer t is what the outcome says. */
  predicate LooksLike(db: Db, t: Id, outcome: Runner.Outcome)
    requires t in db.transfers
  {
    match outcome
    case Accepted => Booked(db, t)
    case RejectedInsufficient => !Booked(db, t) && db.transfers[t].status == Failed
    case ConflictExhausted => !Booked(db, t) && db.transfers[t].status == Pending
    case Errors => false
  }

  lemma ResultLooksLike(db: Db, cl: Client)
    requires BookingsOk(db) && Accounted(db, cl) && cl.pc.Done? && Classify(cl.pc.result) != Runner.Errors
    ensures cl.w.tid.Some? && RowOfKey(db, cl.w.tid.value, cl.w.call.key)
    ensures LooksLike(db, cl.w.tid.value, Classify(cl.pc.result))
  {
    if cl.w.tid.Some? {
      assert RowMatches(db, cl, cl.w.tid.value) && BookingOk(db, cl.w.tid.value);
    }
    hide RowFits, Select, ParamsValid;
  }

  lemma OneLook(db: Db, t: Id, o: Runner.Outcome, p: Runner.Outcome)
    requires t in db.transfers && LooksLike(db, t, o) && LooksLike(db, t, p)
    ensures o == p
  {
    hide Booked;
  }

  /** The transfer of every job. */
  function Rows(s: State, calls: map<nat, nat>): map<nat, Id> {
    map n | n in calls && calls[n] in s.clients && s.clients[calls[n]].w.tid.Some? :: s.clients[calls[n]].w.tid.value
  }

  lemma CallTells(external: bool, es: seq<Event>, c: nat)
    requires ValidRun(external, es) && GoodCall(StateAfter(external, es), es, c)
    requires Classify(StateAfter(external, es).clients[c].pc.result) != Runner.Errors
    ensures var s := StateAfter(external, es);
            var cl := s.clients[c];
            && cl.w.call.CallTransfer? && cl.w.tid.Some? && RowOfKey(s.db, cl.w.tid.value, cl.w.call.key)
            && LooksLike(s.db, cl.w.tid.value, Classify(cl.pc.result))
  {
    var s := StateAfter(external, es);
    ExternalStays(external, es);
    ResultsTellTransfers(external, es, c);
    EveryInterleavingRefinesTheAtomicBank(external, es);
    InvKnowsDb(s);
    BookingsAreOk(s.db);
    hide StateAfter, ValidRun, Inv, Accounted, LeftAloneSoFar, MarkKept;
    hide RowOfKey, LooksLike, Classify, OwnKey, BookingsOk, DbInv;
    assert s.clients[c].w.call.CallTransfer? by { OwnKeyIn(s, c); }
    ResultLooksLike(s.db, s.clients[c]);
  }

  lemma JobTells(external: bool, es: seq<Event>, calls: map<nat, nat>, outcomes: map<nat, Runner.Outcome>, n: nat)
    requires ValidRun(external, es) && JobsMade(StateAfter(external, es), es, calls, outcomes) && n in calls
    ensures var s := StateAfter(external, es);
            && n in Rows(s, calls) && calls[n] in s.clients && s.clients[calls[n]].w.call.CallTransfer?
            && RowOfKey(s.db, Rows(s, calls)[n], s.clients[calls[n]].w.call.key)
            && LooksLike(s.db, Rows(s, calls)[n], outcomes[n])
  {
    var s, c := StateAfter(external, es), calls[n];
    assert GoodCall(s, es, c) && outcomes[n] == Classify(s.clients[c].pc.result);
    assert c in s.clients by { OwnKeyIn(s, c); }
    hide StateAfter, ValidRun, GoodCall, RowOfKey, LooksLike, Classify;
    CallTells(external, es, c);
  }

  /** Different jobs have different keys, and so different transfers. */
  lemma JobsDiffer(s: State, es: seq<Event>, calls: map<nat, nat>, outcomes: map<nat, Runner.Outcome>, m: nat, n: nat)
    requires JobsMade(s, es, calls, outcomes) && m in calls && n in calls
    requires s.clients[calls[m]].w.call.key == s.clients[calls[n]].w.call.key
    ensures m == n
  {
    assert GoodCall(s, es, calls[m]) && GoodCall(s, es, calls[n]);
    hide LeftAloneSoFar, MarkKept, Classify, ParamsValid;
  }

  /** The transfers created for the run: those that carry a key of one of its calls. */
  function CreatedBy(s: State, calls: map<nat, nat>): set<Id> {
    set t | t in s.db.transfers && exists n :: n in calls && Uses(s, calls[n], s.db.transfers[t].key)
  }

  function ThatLook(s: State, ts: set<Id>, o: Runner.Outcome): set<Id> {
    set t | t in ts && t in s.db.transfers && LooksLike(s.db, t, o)
  }

  /** What the calls and the tables have in common, said without runs. */
  ghost predicate JobsTell(s: State, calls: map<nat, nat>, outcomes: map<nat, Runner.Outcome>) {
    var rows := Rows(s, calls);
    && calls.Keys == outcomes.Keys && rows.Keys == calls.Keys
    && (forall m, n :: m in rows && n in rows && rows[m] == rows[n] ==> m == n)
    && (forall n :: n in rows ==> rows[n] in s.db.transfers && LooksLike(s.db, rows[n], outcomes[n]))
    && CreatedBy(s, calls) == Image(calls.Keys, rows)
  }

  /** What one job and the tables have in common. */
  predicate JobTold(s: State, calls: map<nat, nat>, outcomes: map<nat, Runner.Outcome>, n: nat) {
    && n in calls && n in outcomes && n in Rows(s, calls) && calls[n] in s.clients
       && s.clients[calls[n]].w.call.CallTransfer?
    && RowOfKey(s.db, Rows(s, calls)[n], s.clients[calls[n]].w.call.key)
    && LooksLike(s.db, Rows(s, calls)[n], outcomes[n])
  }

  lemma TheyTell(external: bool, es: seq<Event>, calls: map<nat, nat>, outcomes: map<nat, Runner.Outcome>)
    requires ValidRun(external, es) && JobsMade(StateAfter(external, es), es, calls, outcomes)
    ensures JobsTell(StateAfter(external, es), calls, outcomes)
  {
    var s := StateAfter(external, es);
    EveryInterleavingRefinesTheAtomicBank(external, es);
    InvKnowsDb(s);
    assert KeysUnique(s.db) && calls.Keys == outcomes.Keys;
    hide StateAfter, ValidRun, Inv, DbInv, LooksLike, KeysUnique, Rows, GoodCall, Classify;
    forall n | n in calls ensures JobTold(s, calls, outcomes, n) {
      JobTells(external, es, calls, outcomes, n);
    }
    hide JobTold;
    RowsDiffer(s, es, calls, outcomes);
    hide JobsMade;
    RowsAreCreated(s, calls, outcomes);
    ToldIsTold(s, calls, outcomes);
  }

  lemma ToldIsTold(s: State, calls: map<nat, nat>, outcomes: map<nat, Runner.Outcome>)
    requires calls.Keys == outcomes.Keys && forall n :: n in calls ==> JobTold(s, calls, outcomes, n)
    requires forall m, n :: m in Rows(s, calls) && n in Rows(s, calls) && Rows(s, calls)[m] == Rows(s, calls)[n] ==>
               m == n
    requires CreatedBy(s, calls) == Image(calls.Keys, Rows(s, calls))
    ensures JobsTell(s, calls, outcomes)
  {
    hide LooksLike, CreatedBy, Image;
    forall n | n in Rows(s, calls) ensures JobTold(s, calls, outcomes, n) {
    }
    forall n | n in calls ensures n in Rows(s, calls) {
      assert JobTold(s, calls, outcomes, n);
    }
  }

  lemma RowsDiffer(s: State, es: seq<Event>, calls: map<nat, nat>, outcomes: map<nat, Runner.Outcome>)
    requires JobsMade(s, es, calls, outcomes) && forall n :: n in calls ==> JobTold(s, calls, outcomes, n)
    ensures forall m, n :: m in Rows(s, calls) && n in Rows(s, calls) && Rows(s, calls)[m] == Rows(s, calls)[n] ==>
              m == n
  {
    var rows := Rows(s, calls);
    hide LooksLike, JobsMade;
    forall m, n | m in rows && n in rows && rows[m] == rows[n] ensures m == n {
      assert JobTold(s, calls, outcomes, m) && JobTold(s, calls, outcomes, n);
      JobsDiffer(s, es, calls, outcomes, m, n);
    }
  }

  lemma RowsAreCreated(s: State, calls: map<nat, nat>, outcomes: map<nat, Runner.Outcome>)
    requires KeysUnique(s.db) && forall n :: n in calls ==> JobTold(s, calls, outcomes, n)
    ensures CreatedBy(s, calls) == Image(calls.Keys, Rows(s, calls))
  {
    var rows := Rows(s, calls);
    hide LooksLike, KeysUnique, Rows;
    forall t | t in CreatedBy(s, calls) ensures t in Image(calls.Keys, rows) {
      var n :| n in calls && Uses(s, calls[n], s.db.transfers[t].key);
      assert JobTold(s, calls, outcomes, n);
      SameKeySameRow(s.db, t, rows[n]);
    }
    forall t | t in Image(calls.Keys, rows) ensures t in CreatedBy(s, calls) {
      var n :| n in calls && n in rows && rows[n] == t;
      assert JobTold(s, calls, outcomes, n) && Uses(s, calls[n], s.db.transfers[t].key);
    }
  }

  lemma SameKeySameRow(db: Db, t: Id, u: Id)
    requires KeysUnique(db) && t in db.transfers && u in db.transfers && db.transfers[t].key == db.transfers[u].key
    ensures t == u
  {
  }

  lemma LooksCounted(s: State, calls: map<nat, nat>, outcomes: map<nat, Runner.Outcome>, o: Runner.Outcome)
    requires JobsTell(s, calls, outcomes)
    ensures |ThatLook(s, CreatedBy(s, calls), o)| == |Runner.With(outcomes, o)|
  {
    var rows, ns := Rows(s, calls), Runner.With(outcomes, o);
    hide Rows, CreatedBy, LooksLike;
    forall t ensures t in ThatLook(s, CreatedBy(s, calls), o) <==> t in Image(ns, rows) {
      if t in ThatLook(s, CreatedBy(s, calls), o) {
        var n :| n in calls && n in rows && rows[n] == t;
        OneLook(s.db, t, o, outcomes[n]);
      }
    }
    assert ThatLook(s, CreatedBy(s, calls), o) == Image(ns, rows);
    ImageCount(ns, rows);
  }

  /** The books of a completed run without errors. Its calls alone used their keys, no FAILED mark was lost, nobody
      truncated their transfers, and nobody voided one whose conflicts were exhausted; transfers, settlements, reversals
      and all else ran freely beside them. Then the rows created are the jobs dispatched, those with entries the
      accepted, the FAILED ones without entries the rejected, and the PENDING ones without entries those whose conflicts
      were exhausted. */
  lemma CompletedRunAddsUp(external: bool, es: seq<Event>, calls: map<nat, nat>, run: Runner.Execution)
    requires ValidRun(external, es) && JobsMade(StateAfter(external, es), es, calls, run.outcomes)
    requires Runner.ExecutionOk(run) && Runner.WorkersQuit(run)
    ensures var s, rows := StateAfter(external, es), CreatedBy(StateAfter(external, es), calls);
            && |rows| == run.counters.dispatched
            && |set t | t in rows && Booked(s.db, t)| == run.counters.accepted
            && |set t | t in rows && !Booked(s.db, t)
               && s.db.transfers[t].status == Failed| == run.counters.rejectedInsufficient
            && |set t | t in rows && !Booked(s.db, t)
               && s.db.transfers[t].status == Pending| == run.counters.conflictExhausted
  {
    var s := StateAfter(external, es);
    TheyTell(external, es, calls, run.outcomes);
    hide StateAfter, ValidRun, JobsMade;
    Runner.Complete(run);
    LooksCounted(s, calls, run.outcomes, Runner.Accepted);
    LooksCounted(s, calls, run.outcomes, Runner.RejectedInsufficient);
    LooksCounted(s, calls, run.outcomes, Runner.ConflictExhausted);
    Looks(s, CreatedBy(s, calls));
    CountAll(s, calls, run);
    hide JobsTell, CreatedBy, ThatLook, Runner.ExecutionOk, Runner.With;
    assert Runner.Tallied(run.counters, run.outcomes) by { TalliedRun(run); }
  }

  /** The same for the run on the simulator's board, once its phase is finished: as many rows as transfers were asked
      for, divided among the three outcomes as the counters say. */
  lemma FinishedRunAddsUp(external: bool, es: seq<Event>, calls: map<nat, nat>, rs: seq<Runner.Event>)
    requires ValidRun(external, es) && Runner.ValidRun(rs) && Runner.StateAfter(rs).board.phase == Runner.Finished
    requires var sim := Runner.StateAfter(rs);
             sim.board.runID in sim.runs
             && JobsMade(StateAfter(external, es), es, calls, sim.runs[sim.board.runID].outcomes)
    ensures var s, rows := StateAfter(external, es), CreatedBy(StateAfter(external, es), calls);
            var sim := Runner.StateAfter(rs);
            var counters := sim.runs[sim.board.runID].counters;
            && |rows| == sim.board.config.transfers == counters.dispatched
            && |set t | t in rows && Booked(s.db, t)| == counters.accepted
            && |set t | t in rows && !Booked(s.db, t)
               && s.db.transfers[t].status == Failed| == counters.rejectedInsufficient
            && |set t | t in rows && !Booked(s.db, t)
               && s.db.transfers[t].status == Pending| == counters.conflictExhausted
            && counters.accepted + counters.rejectedInsufficient + counters.conflictExhausted ==
                 sim.board.config.transfers
  {
    var sim := Runner.StateAfter(rs);
    Runner.FinishedMeansComplete(rs);
    FinishedExecution(rs);
    hide StateAfter, ValidRun, Runner.StateAfter, Runner.ValidRun;
    hide JobsMade, CreatedBy, Runner.ExecutionOk, Runner.WorkersQuit;
    CompletedRunAddsUp(external, es, calls, sim.runs[sim.board.runID]);
    NoErrors(external, es, calls, sim.runs[sim.board.runID]);
  }

  lemma FinishedExecution(rs: seq<Runner.Event>)
    requires Runner.ValidRun(rs) && Runner.StateAfter(rs).board.phase == Runner.Finished
    ensures var sim := Runner.StateAfter(rs);
            && sim.board.runID in sim.runs && Runner.ExecutionOk(sim.runs[sim.board.runID])
            && sim.board.config == sim.runs[sim.board.runID].config
  {
    Runner.InvAlways(rs);
    hide Runner.StateAfter, Runner.ValidRun, Runner.OneLive, Runner.StepsOk, Runner.ExecutionOk;
  }

  lemma NoErrors(external: bool, es: seq<Event>, calls: map<nat, nat>, run: Runner.Execution)
    requires JobsMade(StateAfter(external, es), es, calls, run.outcomes) && Runner.ExecutionOk(run)
    ensures run.counters.errors == 0
  {
    TalliedRun(run);
    hide StateAfter, GoodCall, Classify, Runner.ExecutionOk;
    assert forall n :: n in run.outcomes ==> n in calls;
    assert Runner.With(run.outcomes, Runner.Errors) == {};
  }

  lemma Looks(s: State, rows: set<Id>)
    requires rows <= s.db.transfers.Keys
    ensures ThatLook(s, rows, Runner.Accepted) == set t | t in rows && Booked(s.db, t)
    ensures ThatLook(s, rows, Runner.RejectedInsufficient) == set t | t in rows && !Booked(s.db, t)
            && s.db.transfers[t].status == Failed
    ensures ThatLook(s, rows, Runner.ConflictExhausted) == set t | t in rows && !Booked(s.db, t)
            && s.db.transfers[t].status == Pending
  {
    hide Booked;
  }

  lemma TalliedRun(run: Runner.Execution)
    requires Runner.ExecutionOk(run)
    ensures Runner.Tallied(run.counters, run.outcomes)
  {
    hide Runner.HandsOk, Runner.Tallied, Runner.InFlight;
  }

  lemma CountAll(s: State, calls: map<nat, nat>, run: Runner.Execution)
    requires JobsTell(s, calls, run.outcomes) && run.next >= 1 && run.outcomes.Keys == Runner.Upto(run.next - 1)
    requires run.counters.dispatched == run.next - 1
    ensures |CreatedBy(s, calls)| == run.counters.dispatched
  {
    hide Rows, CreatedBy, LooksLike, Runner.Upto;
    ImageCount(calls.Keys, Rows(s, calls));
  }
}
