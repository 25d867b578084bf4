/** The two settlement modes: where the bank settles its transfers itself, whatever is booked is settled. */
module Modes {
  import opened Common
  import opened Ledger
  import opened Bank
  import opened BankLaws
  import opened History
  import opened Protocol
  import opened Invariant
  import opened Refinement
  import opened Steps

  /** No transfer has entries and is still PENDING. */
  predicate NoneAwaits(db: Db) { forall t :: t in db.transfers && db.transfers[t].status == Pending ==> !Booked(db, t) }

  predicate NoBooking(out: Out) { out.log.None? || !out.log.value.Book? }

  lemma RowsBookNothing(db: Db, cl: Client, newId: Id, now: nat, clock: nat, external: bool)
    requires Typed(cl)
    requires cl.pc.Validate? || cl.pc.Insert? || cl.pc.Find? || cl.pc.LockRow? || cl.pc.CountBooked?
    ensures NoBooking(DoStatement(db, cl, newId, now, clock, external))
  {
    hide KeyTaken, ByKey, Select, RowIs, ParamsValid, Continues, RowOf, SuccessOf;
    hide DoReadAcc, DoLockAcc, DoUpdateAcc, DoAddEntry, DoWriteRow, DoCommit, DoMarkFail, DoFetch, DoOpen, DoSetStatus;
  }

  lemma AccountsBookNothing(db: Db, cl: Client, n: nat)
    ensures NoBooking(DoReadAcc(db, cl, n)) && NoBooking(DoLockAcc(db, cl, n))
    ensures cl.pc == UpdateAcc(n) ==> NoBooking(DoUpdateAcc(db, cl, n))
  {
    hide NewBalance, VersionMatches, ReadAt, UpdateAt, Continues;
  }

  lemma OthersBookNothing(db: Db, cl: Client, newId: Id, now: nat, clock: nat, external: bool)
    requires Typed(cl) && !cl.pc.Validate? && !cl.pc.Insert? && !cl.pc.Find? && !cl.pc.LockRow? && !cl.pc.CountBooked?
    requires !cl.pc.ReadAcc? && !cl.pc.LockAcc? && !cl.pc.UpdateAcc? && !cl.pc.CommitTx?
    ensures NoBooking(DoStatement(db, cl, newId, now, clock, external))
  {
    hide DoReadAcc, DoLockAcc, DoUpdateAcc, DoCommit, DoValidate, DoInsert, DoFind, DoLockRow, DoCountBooked;
    hide NewEntry, RowWriteOf, Continues;
  }

  lemma StatementSettles(db: Db, cl: Client, newId: Id, now: nat, clock: nat, external: bool)
    requires Shape(cl, external) && Typed(cl)
    ensures var log := DoStatement(db, cl, newId, now, clock, external).log;
            log.Some? && log.value.Book? ==> log.value.settles == !external
  {
    hide Shape, CommittedOp, Publish, Continues, DoReadAcc, DoLockAcc, DoUpdateAcc;
    if cl.pc.CommitTx? {
      CommitSettles(cl, external);
    } else if cl.pc.ReadAcc? || cl.pc.LockAcc? || cl.pc.UpdateAcc? {
      AccountsBookNothing(db, cl, cl.pc.n);
    } else {
      hide DoStatement;
      if cl.pc.Validate? || cl.pc.Insert? || cl.pc.Find? || cl.pc.LockRow? || cl.pc.CountBooked? {
        RowsBookNothing(db, cl, newId, now, clock, external);
      } else {
        OthersBookNothing(db, cl, newId, now, clock, external);
      }
    }
  }

  lemma CommitSettles(cl: Client, external: bool)
    requires Shape(cl, external) && cl.pc.CommitTx?
    ensures CommittedOp(cl).Some? && CommittedOp(cl).value.Book? ==> CommittedOp(cl).value.settles == !external
  {
    hide Posted, Counted, RowRead, HeldShape, CallShape, Blank;
  }

  lemma ExecKeepsNoneAwaits(db: Db, op: Op)
    requires DbInv(db) && Guard(db, op) && NoneAwaits(db) && (op.Book? ==> op.settles)
    ensures NoneAwaits(Exec(db, op))
  {
    var db' := Exec(db, op);
    hide DbInv, Guard, Exec, Booked;
    forall t | t in db'.transfers && db'.transfers[t].status == Pending ensures !Booked(db', t) {
      BookedStep(db, op, t);
      if t in db.transfers { StillPending(db, op, t); }
    }
  }

  /** A transfer that is PENDING after an operation was so before, and was not settled by it. */
  lemma StillPending(db: Db, op: Op, t: Id)
    requires DbInv(db) && Guard(db, op) && t in db.transfers && (op.Book? ==> op.settles)
    requires t in Exec(db, op).transfers && Exec(db, op).transfers[t].status == Pending
    ensures db.transfers[t].status == Pending && !(op.Book? && op.tid == t)
  {
    if Concerns(op, t) {
      hide AccountsOk, EntriesOk, BookingsOk, KeysUnique, Booked;
    } else {
      ExecOtherTransfer(db, op, t);
      hide DbInv, Exec, Booked;
    }
  }

  lemma StepKeepsNoneAwaits(s: State, e: Event)
    requires Inv(s) && Enabled(s, e) && !s.external && NoneAwaits(s.db)
    ensures NoneAwaits(Apply(s, e).db)
  {
    StepCommits(s, e);
    if e.Do? {
      assert ClientOk(s, s.clients[e.client]);
      hide Inv, Shape, Linked, DoStatement, Apply, DbInv, Guard, Exec, NextLock, NoneAwaits;
      StatementSettles(s.db, s.clients[e.client], e.newId, e.now, |s.history|, s.external);
    }
    hide Inv, Enabled, Apply, DbInv, Guard, Exec, NoneAwaits;
    if OpOf(s, e).Some? { ExecKeepsNoneAwaits(s.db, OpOf(s, e).value); }
    hide OpOf;
  }

  /** In the internal mode, in every reachable state, no transfer has entries and is PENDING: every booking settles. */
  lemma {:induction false} InternalBookingsSettle(es: seq<Event>)
    requires ValidRun(false, es)
    ensures NoneAwaits(StateAfter(false, es).db)
  {
    hide Enabled, Apply, Inv, NoneAwaits;
    if es == [] {
      assert NoneAwaits(Init(false).db) by { NobodyAwaits(); }
    } else {
      var s, e := LastStep(false, es);
      InternalBookingsSettle(es[..|es| - 1]);
      ExternalStays(false, es[..|es| - 1]);
      StepKeepsNoneAwaits(s, e);
    }
  }

  lemma NobodyAwaits()
    ensures NoneAwaits(Init(false).db)
  {
  }
}
