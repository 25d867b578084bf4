/** What the outcome of a Transfer call tells its caller, over every run: honest results, and conflicts that are
    always somebody else's doing. */
module Calls {
  import opened Common
  import opened Ledger
  import opened Bank
  import opened History
  import opened Protocol
  import opened Invariant
  import opened Statements
  import opened Refinement

  // --------------------------------------------------------------------------- what a call has committed itself

  /** What a call may have committed by the time it stands where it stands. */
  predicate MayHaveDone(cl: Client, op: Op) {
    cl.w.call.CallTransfer? ==>
      match op
      case Create(_, row) => (cl.w.tid.Some? || cl.outer > 0) && row.key == cl.w.call.key
      case Book(t, from, to, amount, _) =>
        && cl.pc.Done? && cl.pc.result.Accepted? && cl.w.tid == Some(t)
        && from == cl.w.call.from && to == cl.w.call.to && amount == cl.w.call.amount
      case MarkFailed(t) => cl.pc == Done(Invalid(true)) && cl.w.tid == Some(t)
      case _ => false
  }

  ghost predicate OwnCommits(h: seq<Commit>, c: nat, cl: Client) {
    forall i :: 0 <= i < |h| && h[i].client == c ==> i >= cl.begun && MayHaveDone(cl, h[i].op)
  }

  /** Transfer that returned nil has its transfer booked, exactly once. */
  ghost predicate AcceptedBooked(h: seq<Commit>, cl: Client) {
    cl.w.call.CallTransfer? && cl.pc.Done? && cl.pc.result.Accepted? ==>
      cl.w.tid.Some? && Bookings(h, cl.w.tid.value) == 1
  }

  // -------------------------------------------------------------------------------------------- foreign commits

  /** How many commits of the history change the balance of a or b. */
  function Hits(h: seq<Commit>, a: Id, b: Id): nat {
    if h == [] then 0
    else Hits(Front(h), a, b) + (if Touches(Last(h).op, a) || Touches(Last(h).op, b) then 1 else 0)
  }

  /** Attempts lost to version conflicts so far. */
  function Lost(cl: Client): int {
    3 * (cl.outer - cl.clashed) + (if cl.pc == Done(Conflicted) then 3 else cl.attempt)
  }

  function HitsSince(h: seq<Commit>, cl: Client, upto: nat): int
    requires cl.begun <= upto <= |h| && cl.w.call.CallTransfer?
  {
    Hits(h[..upto], cl.w.call.from, cl.w.call.to) - Hits(h[..cl.begun], cl.w.call.from, cl.w.call.to)
  }

  /** Every lost attempt of a Transfer call is paid for by a balance commit on its accounts since the call began;
      inside a transaction, by one from before the attempt, and everything read is at least as new as the attempt. */
  ghost predicate Paid(h: seq<Commit>, cl: Client) {
    && cl.begun <= cl.epoch <= |h|
    && (cl.w.call.CallTransfer? ==>
          && Lost(cl) <= HitsSince(h, cl, if cl.w.row.Some? then cl.epoch else |h|)
          && (cl.w.row == None ==> cl.w.snap == map[])
          && (forall a :: a in cl.w.snap ==>
                (a == cl.w.call.from || a == cl.w.call.to) && Changes(h[..cl.epoch], a) <= cl.w.snap[a].version))
  }

  ghost predicate CallInv(s: State) {
    && (forall c :: c in s.clients ==>
          OwnCommits(s.history, c, s.clients[c]) && AcceptedBooked(s.history, s.clients[c])
          && Paid(s.history, s.clients[c]))
    && (forall i :: 0 <= i < |s.history| ==> s.history[i].client in s.clients)
  }

  // ---------------------------------------------------------------------------------------- counting on prefixes

  lemma {:induction false} HitsMonotone(h: seq<Commit>, n: nat, a: Id, b: Id)
    requires n <= |h|
    ensures Hits(h[..n], a, b) <= Hits(h, a, b)
    ensures Changes(h[..n], a) <= Changes(h, a)
  {
    if n < |h| {
      HitsMonotone(Front(h), n, a, b);
      assert Front(h)[..n] == h[..n];
    } else {
      assert h[..n] == h;
    }
  }

  /** A balance that changed since the n-th commit was hit since. */
  lemma {:induction false} ChangedMeansHit(h: seq<Commit>, n: nat, a: Id, b: Id, x: Id)
    requires n <= |h| && (x == a || x == b) && Changes(h[..n], x) < Changes(h, x)
    ensures Hits(h[..n], a, b) < Hits(h, a, b)
  {
    assert h[..|h|] == h;
    if n < |h| {
      assert Front(h)[..n] == h[..n];
      if Touches(Last(h).op, x) { HitsMonotone(Front(h), n, a, b); }
      else { ChangedMeansHit(Front(h), n, a, b, x); }
    }
  }

  lemma HitsAppend(h: seq<Commit>, c: Commit, n: nat, a: Id, b: Id)
    requires n <= |h|
    ensures (h + [c])[..n] == h[..n] && Hits(h, a, b) <= Hits(h + [c], a, b)
  {
    assert Front(h + [c]) == h;
  }

  // ------------------------------------------------------------------------------- other clients' steps are harmless

  lemma OthersKeepCall(h: seq<Commit>, c: nat, cl: Client, k: Commit)
    requires OwnCommits(h, c, cl) && AcceptedBooked(h, cl) && Paid(h, cl) && k.client != c && Legal(h + [k])
    ensures OwnCommits(h + [k], c, cl) && AcceptedBooked(h + [k], cl) && Paid(h + [k], cl)
  {
    var h' := h + [k];
    hide Legal, Hits, Changes, MayHaveDone;
    HitsAppendPaid(h, cl, k);
    if cl.w.tid.Some? {
      BookingsAppend(h, k, cl.w.tid.value);
      BookedAtMostOnce(h', cl.w.tid.value);
    }
    hide Paid, Bookings;
    assert OwnCommits(h', c, cl);
  }

  lemma HitsAppendPaid(h: seq<Commit>, cl: Client, k: Commit)
    requires Paid(h, cl)
    ensures Paid(h + [k], cl)
  {
    hide Hits, Changes, Lost;
    var h' := h + [k];
    assert h'[..cl.epoch] == h[..cl.epoch] && h'[..cl.begun] == h[..cl.begun];
    assert h[..|h|] == h && h'[..|h'|] == h';
    if cl.w.call.CallTransfer? {
      HitsAppend(h, k, |h|, cl.w.call.from, cl.w.call.to);
    }
  }

  // ------------------------------------------------------------------------------------------ the client's own steps

  /** The statement finds a version that is not the one its transaction read. */
  predicate Collides(db: Db, cl: Client) {
    cl.pc.UpdateAcc? && !VersionMatches(db, cl.w, UpdateAt(cl.w, cl.pc.n))
  }

  lemma LostByFind(db: Db, cl: Client)
    requires cl.w.call.CallTransfer? && cl.pc.Find?
    ensures Lost(DoFind(db, cl).cl) <= Lost(cl)
  {
    hide KeyTaken, RowIs;
  }

  lemma LostByUpdate(db: Db, cl: Client, n: nat)
    requires cl.w.call.CallTransfer? && cl.pc == UpdateAcc(n) && cl.attempt < MAX_RETRIES
    ensures var cl' := DoUpdateAcc(db, cl, n).cl;
            Lost(cl') <= Lost(cl) + (if Collides(db, cl) then 1 else 0) && (Collides(db, cl) ==> cl'.w.row == None)
  {
    hide VersionMatches, NewBalance;
  }

  lemma LostElsewhere(db: Db, cl: Client, newId: Id, now: nat, clock: nat, external: bool)
    requires Typed(cl) && cl.w.call.CallTransfer? && !cl.pc.Done? && !cl.pc.LockAcc? && !cl.pc.Find?
             && !cl.pc.UpdateAcc?
    ensures Lost(DoStatement(db, cl, newId, now, clock, external).cl) <= Lost(cl)
  {
    hide DoFind, DoUpdateAcc, DoConflict, DoLockAcc;
    hide KeyTaken, NewBalance, Select, RowIs, Publish, CommittedOp, NewEntry, ParamsValid, Continues;
  }

  lemma LostMoves(db: Db, cl: Client, newId: Id, now: nat, clock: nat, external: bool)
    requires Typed(cl) && cl.w.call.CallTransfer? && cl.attempt < MAX_RETRIES && !cl.pc.Done? && !cl.pc.LockAcc?
    ensures var cl' := DoStatement(db, cl, newId, now, clock, external).cl;
            Lost(cl') <= Lost(cl) + (if Collides(db, cl) then 1 else 0) && (Collides(db, cl) ==> cl'.w.row == None)
  {
    hide Lost, DoFind, DoUpdateAcc, Continues;
    if cl.pc.Find? { LostByFind(db, cl); hide DoInsert, DoReadAcc, DoLockAcc, DoCommit, DoLockRow, DoCountBooked; }
    else if cl.pc.UpdateAcc? {
      LostByUpdate(db, cl, cl.pc.n);
      hide DoInsert, DoReadAcc, DoLockAcc, DoCommit, DoLockRow, DoCountBooked;
    }
    else { LostElsewhere(db, cl, newId, now, clock, external); hide DoStatement; }
  }

  /** The row is read once, when the epoch is set; accounts are read from the current tables. */
  ghost predicate ReadsMove(db: Db, cl: Client, cl': Client, clock: nat) {
    && (cl'.w.row.Some? ==>
          if cl.pc.LockRow? then cl'.epoch == clock && cl'.w.snap == cl.w.snap
          else cl'.w.row == cl.w.row && cl'.epoch == cl.epoch)
    && (forall a :: a in cl'.w.snap ==>
          || (a in cl.w.snap && cl'.w.snap[a] == cl.w.snap[a])
          || (a in db.accounts && cl'.w.snap[a] == db.accounts[a]))
  }

  lemma ReadsByAccount(db: Db, cl: Client, n: nat, clock: nat)
    ensures cl.pc.ReadAcc? ==> ReadsMove(db, cl, DoReadAcc(db, cl, n).cl, clock)
    ensures cl.pc.LockAcc? ==> ReadsMove(db, cl, DoLockAcc(db, cl, n).cl, clock)
  {
    hide NewBalance, ReadAt, Continues;
  }

  lemma ReadsByUpdate(db: Db, cl: Client, n: nat, clock: nat)
    requires cl.pc == UpdateAcc(n)
    ensures ReadsMove(db, cl, DoUpdateAcc(db, cl, n).cl, clock)
  {
    hide NewBalance, UpdateAt, VersionMatches, Continues;
  }

  predicate BeforeRow(pc: Pc) { pc.Validate? || pc.Insert? || pc.Find? || pc.LockRow? || pc.CountBooked? }

  lemma ReadsBefore(db: Db, cl: Client, newId: Id, now: nat, clock: nat, external: bool)
    requires Typed(cl) && cl.w.call.CallTransfer? && BeforeRow(cl.pc)
    ensures ReadsMove(db, cl, DoStatement(db, cl, newId, now, clock, external).cl, clock)
  {
    hide DoReadAcc, DoLockAcc, DoUpdateAcc, DoAddEntry, DoWriteRow;
    hide DoCommit, DoMarkFail, DoFetch, DoOpen, DoSetStatus, DoTruncate;
    hide KeyTaken, ByKey, Select, RowIs, ParamsValid, Continues, RowOf;
  }

  lemma ReadsElsewhere(db: Db, cl: Client, newId: Id, now: nat, clock: nat, external: bool)
    requires Typed(cl) && cl.w.call.CallTransfer? && !cl.pc.Done?
    requires !cl.pc.ReadAcc? && !cl.pc.LockAcc? && !cl.pc.UpdateAcc? && !BeforeRow(cl.pc)
    ensures ReadsMove(db, cl, DoStatement(db, cl, newId, now, clock, external).cl, clock)
  {
    hide DoReadAcc, DoLockAcc, DoUpdateAcc, DoConflict, DoValidate, DoInsert, DoFind, DoLockRow, DoCountBooked;
    hide KeyTaken, NewBalance, Select, RowIs, Publish, CommittedOp, NewEntry, ParamsValid, Continues;
  }

  lemma ReadsMoves(db: Db, cl: Client, newId: Id, now: nat, clock: nat, external: bool)
    requires Typed(cl) && cl.w.call.CallTransfer? && !cl.pc.Done?
    ensures ReadsMove(db, cl, DoStatement(db, cl, newId, now, clock, external).cl, clock)
  {
    hide ReadsMove, DoReadAcc, DoLockAcc, DoUpdateAcc, DoCommit, DoFind, DoInsert, DoLockRow, DoCountBooked, Continues;
    if cl.pc.ReadAcc? || cl.pc.LockAcc? { ReadsByAccount(db, cl, cl.pc.n, clock); }
    else if cl.pc.UpdateAcc? { ReadsByUpdate(db, cl, cl.pc.n, clock); }
    else if BeforeRow(cl.pc) { ReadsBefore(db, cl, newId, now, clock, external); hide DoStatement; }
    else { ReadsElsewhere(db, cl, newId, now, clock, external); hide DoStatement; }
  }

  /** Where a Transfer call has read accounts it has read its row, and only its two accounts. */
  lemma ShapeOfReads(cl: Client, external: bool)
    requires Shape(cl, external) && cl.w.call.CallTransfer?
    ensures cl.w.row == None ==> cl.w.snap == map[]
    ensures forall a :: a in cl.w.snap ==> a == cl.w.call.from || a == cl.w.call.to
    ensures !cl.pc.LockAcc? && (cl.pc.LockRow? ==> cl.w.row == None)
  {
    hide RowFits, NewBalance, RowsHeld, NewEntries, ParamsValid, CallOk;
  }

  /** A collision means that somebody committed a balance change to one of the accounts after the attempt began. */
  lemma CollisionIsPaid(s: State, cl: Client)
    requires Refines(s) && ClientOk(s, cl) && Paid(s.history, cl) && cl.w.call.CallTransfer? && Collides(s.db, cl)
    ensures cl.w.row.Some? && HitsSince(s.history, cl, cl.epoch) < HitsSince(s.history, cl, |s.history|)
  {
    hide Legal, Replay, HeldShape, CallShape;
    var a := UpdateAt(cl.w, cl.pc.n);
    UpdateReady(cl, cl.pc.n, a) by { hide UpdateShape; }
    CollisionMovesVersion(s, cl, a);
    VersionCountsChanges(s.history, a);
    hide PcShape, Linked, Collides, Refines;
    ChangedMeansHit(s.history, cl.epoch, cl.w.call.from, cl.w.call.to, a);
    assert s.history[..|s.history|] == s.history;
  }

  lemma CollisionMovesVersion(s: State, cl: Client, a: Id)
    requires ClientOk(s, cl) && Collides(s.db, cl) && a == UpdateAt(cl.w, cl.pc.n) && a in cl.w.snap
    ensures a in s.db.accounts && cl.w.snap[a].version < s.db.accounts[a].version
  {
    hide Shape, Select, UpdateAt, Remembers;
    assert SnapOk(s.db, a, cl.w.snap[a]);
  }

  lemma ReadsStayNew(s: State, cl: Client, cl': Client)
    requires Refines(s) && Shape(cl', s.external) && Paid(s.history, cl) && ReadsMove(s.db, cl, cl', |s.history|)
    requires cl.w.call.CallTransfer? && cl'.w.call == cl.w.call
    requires cl.pc.LockRow? ==> cl.w.row == None
    requires cl'.epoch <= |s.history| && cl'.begun == cl.begun
    ensures forall a :: a in cl'.w.snap ==>
              (a == cl.w.call.from || a == cl.w.call.to) && Changes(s.history[..cl'.epoch], a) <= cl'.w.snap[a].version
  {
    ShapeOfReads(cl', s.external);
    hide Shape, Linked, Refines, Lost, Hits, Changes;
    forall a | a in cl'.w.snap
      ensures (a == cl.w.call.from || a == cl.w.call.to) && Changes(s.history[..cl'.epoch], a) <= cl'.w.snap[a].version
    {
      if !(a in cl.w.snap && cl'.w.snap[a] == cl.w.snap[a]) {
        assert Changes(s.history[..cl'.epoch], a) <= Changes(s.history, a) by {
          HitsMonotone(s.history, cl'.epoch, a, a);
        }
        assert s.db.accounts[a].version == Changes(s.history, a) by { CurrentVersion(s, a); }
      }
    }
  }

  lemma CurrentVersion(s: State, a: Id)
    requires Refines(s) && a in s.db.accounts
    ensures s.db.accounts[a].version == Changes(s.history, a)
  {
    VersionCountsChanges(s.history, a);
  }

  lemma PaidMoves(s: State, cl: Client, cl': Client)
    requires Refines(s) && ClientOk(s, cl) && Shape(cl', s.external) && Paid(s.history, cl)
    requires cl.w.call.CallTransfer? && cl'.w.call == cl.w.call && cl'.begun == cl.begun
    requires cl'.epoch == cl.epoch || (cl'.epoch == |s.history| && cl.pc.LockRow?)
    requires ReadsMove(s.db, cl, cl', |s.history|)
    requires Lost(cl') <= Lost(cl) + (if Collides(s.db, cl) then 1 else 0) && (Collides(s.db, cl) ==> cl'.w.row == None)
    ensures Paid(s.history, cl')
  {
    ShapeOfReads(cl, s.external);
    ShapeOfReads(cl', s.external);
    ReadsStayNew(s, cl, cl');
    if Collides(s.db, cl) { CollisionIsPaid(s, cl); }
    HitsMonotone(s.history, cl.epoch, cl.w.call.from, cl.w.call.to);
    assert s.history[..|s.history|] == s.history;
    hide Lost, Hits, Changes, Collides, Shape, Linked, Refines;
  }

  /** Client c, standing as cl, runs its statement and gets out. */
  ghost predicate Runs(s: State, c: nat, cl: Client, newId: Id, now: nat, out: Out) {
    && c in s.clients && cl == s.clients[c] && Enabled(s, Do(c, newId, now))
    && out == DoStatement(s.db, cl, newId, now, |s.history|, s.external)
  }

  lemma RunsShape(s: State, c: nat, cl: Client, newId: Id, now: nat, out: Out)
    requires Inv(s) && Runs(s, c, cl, newId, now, out)
    ensures ClientOk(s, cl) && Typed(cl) && !cl.pc.Done? && Shape(out.cl, s.external)
  {
    InvKnowsDb(s);
    assert ClientOk(s, cl);
    hide DoStatement, Refines, Exclusion, Shape, Linked, NextLock, Effect;
    StatementOk(s.db, cl, newId, now, |s.history|, s.external);
  }

  lemma TransferKeepsPaid(s: State, c: nat, cl: Client, newId: Id, now: nat, out: Out)
    requires Inv(s) && Runs(s, c, cl, newId, now, out) && Paid(s.history, cl) && cl.w.call.CallTransfer?
    ensures Paid(s.history, out.cl)
  {
    RunsShape(s, c, cl, newId, now, out);
    assert Refines(s);
    hide Inv, DoStatement, Lost, Collides, Paid, Refines, ReadsMove, Linked, Enabled;
    ShapeOfReads(cl, s.external);
    assert cl.attempt < MAX_RETRIES && !cl.pc.LockAcc?;
    hide Shape, ClientOk;
    LostMoves(s.db, cl, newId, now, |s.history|, s.external);
    ReadsMoves(s.db, cl, newId, now, |s.history|, s.external);
    PaidMoves(s, cl, out.cl);
  }

  lemma DoKeepsPaid(s: State, c: nat, cl: Client, newId: Id, now: nat, out: Out)
    requires Inv(s) && Runs(s, c, cl, newId, now, out) && Paid(s.history, cl)
    ensures Paid(s.history, out.cl)
  {
    RunsShape(s, c, cl, newId, now, out);
    hide Inv, DoStatement, Lost, Collides, ClientOk, Shape, Enabled, Hits, Changes;
    if cl.w.call.CallTransfer? { TransferKeepsPaid(s, c, cl, newId, now, out); }
  }

  // -------------------------------------------------------------------------------------------- honest results

  lemma LogMoves(db: Db, cl: Client, newId: Id, now: nat, clock: nat, external: bool)
    requires Typed(cl) && cl.w.call.CallTransfer? && !cl.pc.OpenAcc? && !cl.pc.TruncateAll?
    requires cl.pc.CommitTx? ==> cl.w.tid.Some?
    ensures var out := DoStatement(db, cl, newId, now, clock, external); out.log.Some? ==>
              MayHaveDone(out.cl, out.log.value)
  {
    hide KeyTaken, VersionMatches, NewBalance, Select, RowIs, Publish, NewEntry, ParamsValid, KeyTaken;
    if cl.pc.Insert? || cl.pc.CommitTx? || cl.pc.MarkFail? {
      hide DoFind, DoLockRow, DoReadAcc, DoLockAcc, DoUpdateAcc, DoConflict, DoCountBooked, DoAddEntry;
    } else {
      hide DoInsert, DoCommit, DoMarkFail, MayHaveDone;
    }
  }

  lemma OwnMoves(cl: Client, cl': Client)
    requires cl.w.call.CallTransfer? && !cl.pc.Done? && cl'.w.call == cl.w.call
    requires (cl.w.tid.Some? || cl.outer > 0) ==> (cl'.w.tid.Some? || cl'.outer > 0)
    ensures forall op :: MayHaveDone(cl, op) ==> MayHaveDone(cl', op)
  {
  }

  lemma TransferPcs(cl: Client, external: bool)
    requires Shape(cl, external) && cl.w.call.CallTransfer?
    ensures !cl.pc.OpenAcc? && !cl.pc.TruncateAll? && (cl.pc.CommitTx? ==> cl.w.tid.Some?)
  {
    hide LockShape, ReadShape, UpdateShape, AddShape, WriteShape, CallShape, HeldShape, Updated;
  }

  /** Every way to nil: the transfer is found booked, or this statement books it. */
  predicate AcceptedMove(db: Db, out: Out) {
    out.cl.pc.Done? && out.cl.pc.result.Accepted? ==>
      && out.cl.w.tid.Some?
      && (if out.log.Some? then out.log.value.Book? && out.log.value.tid == out.cl.w.tid.value
          else out.cl.w.tid.value in db.transfers && Booked(db, out.cl.w.tid.value))
  }

  lemma AcceptedByRow(db: Db, cl: Client, clock: nat, external: bool)
    requires BookingsOk(db) && cl.w.call.CallTransfer?
    ensures cl.pc.Find? ==> AcceptedMove(db, DoFind(db, cl))
    ensures cl.pc.LockRow? && cl.w.tid.Some? ==> AcceptedMove(db, DoLockRow(db, cl, clock, external))
  {
    SettledIsBooked(db);
    hide BookingsOk, Booked, KeyTaken, RowIs, Continues;
  }

  lemma AcceptedByCount(db: Db, cl: Client, external: bool)
    requires cl.w.call.CallTransfer? && cl.w.tid.Some?
    ensures cl.pc.CountBooked? && cl.w.tid.value in db.transfers ==> AcceptedMove(db, DoCountBooked(db, cl, external))
    ensures cl.pc.CommitTx? ==> AcceptedMove(db, DoCommit(db, cl, external))
  {
    hide Select, Publish, Continues;
  }

  lemma AcceptedNowhereElse(db: Db, cl: Client, newId: Id, now: nat, clock: nat, external: bool)
    requires Typed(cl) && cl.w.call.CallTransfer? && !cl.pc.Done?
    requires !cl.pc.Find? && !cl.pc.LockRow? && !cl.pc.CountBooked? && !cl.pc.CommitTx?
    ensures AcceptedMove(db, DoStatement(db, cl, newId, now, clock, external))
  {
    hide DoFind, DoLockRow, DoCountBooked, DoCommit, Booked;
    hide KeyTaken, VersionMatches, NewBalance, NewEntry, ParamsValid, Continues;
  }

  lemma AcceptedMoves(db: Db, cl: Client, newId: Id, now: nat, clock: nat, external: bool)
    requires Typed(cl) && BookingsOk(db) && cl.w.call.CallTransfer? && !cl.pc.Done?
    requires cl.pc.CommitTx? ==> cl.w.tid.Some?
    requires cl.pc.CountBooked? ==> cl.w.tid.value in db.transfers
    ensures AcceptedMove(db, DoStatement(db, cl, newId, now, clock, external))
  {
    hide AcceptedMove, DoReadAcc, DoLockAcc, DoUpdateAcc, DoCommit;
    hide DoFind, DoInsert, DoLockRow, DoCountBooked, Continues, BookingsOk;
    if cl.pc.Find? || cl.pc.LockRow? { AcceptedByRow(db, cl, clock, external); }
    else if cl.pc.CountBooked? || cl.pc.CommitTx? { AcceptedByCount(db, cl, external); }
    else { AcceptedNowhereElse(db, cl, newId, now, clock, external); hide DoStatement; }
  }

  lemma SettledIsBooked(db: Db)
    requires BookingsOk(db)
    ensures forall t :: t in db.transfers && db.transfers[t].status == Settled ==> Booked(db, t)
  {
    forall t | t in db.transfers && db.transfers[t].status == Settled ensures Booked(db, t) {
      assert BookingOk(db, t);
    }
  }

  lemma OwnAppend(h: seq<Commit>, c: nat, cl: Client, cl': Client, k: Commit)
    requires OwnCommits(h, c, cl) && k.client == c && cl'.begun == cl.begun <= |h| && MayHaveDone(cl', k.op)
    requires forall op :: MayHaveDone(cl, op) ==> MayHaveDone(cl', op)
    ensures OwnCommits(h + [k], c, cl')
  {
    hide MayHaveDone;
  }

  lemma DoKeepsOwn(s: State, c: nat, cl: Client, newId: Id, now: nat, out: Out)
    requires Inv(s) && Runs(s, c, cl, newId, now, out)
    requires OwnCommits(s.history, c, cl) && Paid(s.history, cl)
    ensures OwnCommits(Settle(s, c, out).history, c, out.cl)
  {
    RunsShape(s, c, cl, newId, now, out);
    hide Inv, DoStatement, ClientOk, Shape, Enabled, Paid;
    assert cl.begun <= |s.history| by { PaidBegun(s.history, cl); }
    if cl.w.call.CallTransfer? { TransferMoves(s, c, cl, newId, now, out); }
    hide MayHaveDone, Runs;
    if out.log.Some? { OwnAppend(s.history, c, cl, out.cl, Commit(c, out.log.value)); }
  }

  lemma TransferMoves(s: State, c: nat, cl: Client, newId: Id, now: nat, out: Out)
    requires Runs(s, c, cl, newId, now, out) && ClientOk(s, cl) && cl.w.call.CallTransfer?
    ensures forall op :: MayHaveDone(cl, op) ==> MayHaveDone(out.cl, op)
    ensures out.log.Some? ==> MayHaveDone(out.cl, out.log.value)
  {
    hide MayHaveDone, ClientOk, Shape, Linked, DoStatement, NextLock, Free;
    ClientShape(s, cl);
    TransferPcs(cl, s.external);
    LogMoves(s.db, cl, newId, now, |s.history|, s.external);
    OwnMoves(cl, out.cl);
  }

  lemma PaidBegun(h: seq<Commit>, cl: Client)
    requires Paid(h, cl)
    ensures cl.begun <= |h|
  {
  }

  lemma ClientShape(s: State, cl: Client)
    requires ClientOk(s, cl)
    ensures Shape(cl, s.external) && Linked(s.db, cl.w, cl.held)
  {
  }

  lemma DoKeepsAccepted(s: State, c: nat, cl: Client, newId: Id, now: nat, out: Out)
    requires Inv(s) && Runs(s, c, cl, newId, now, out)
    ensures AcceptedBooked(Settle(s, c, out).history, out.cl)
  {
    RunsShape(s, c, cl, newId, now, out);
    assert Refines(s);
    InvKnowsDb(s);
    var s' := Settle(s, c, out);
    assert Refines(s') by { RunsRefines(s, c, cl, newId, now, out); }
    hide Inv, DoStatement, ClientOk, Shape, Enabled, Linked, RowsOk, AccountsOk, EntriesOk, KeysUnique, IdsIssued;
    if cl.w.call.CallTransfer? && out.cl.pc.Done? && out.cl.pc.result.Accepted? {
      ClientShape(s, cl);
      TransferPcs(cl, s.external);
      assert cl.pc.CountBooked? ==> cl.w.tid.value in s.db.transfers by { CountedRowExists(s, cl); }
      AcceptedMoves(s.db, cl, newId, now, |s.history|, s.external);
      var t := out.cl.w.tid.value;
      BookedAtMostOnce(s.history, t);
      BookedAtMostOnce(s'.history, t);
      if out.log.Some? { BookingsAppend(s.history, Commit(c, out.log.value), t); }
    }
  }

  lemma CountedRowExists(s: State, cl: Client)
    requires Shape(cl, s.external) && Linked(s.db, cl.w, cl.held)
    ensures cl.pc.CountBooked? ==> cl.w.tid.Some? && cl.w.tid.value in s.db.transfers
  {
    hide RestShape, LockShape, ReadShape, UpdateShape, AddShape, WriteShape, CommitShape, CallShape, HeldShape;
  }

  lemma RunsRefines(s: State, c: nat, cl: Client, newId: Id, now: nat, out: Out)
    requires Inv(s) && Runs(s, c, cl, newId, now, out)
    ensures Refines(Settle(s, c, out))
  {
    assert Settle(s, c, out) == Apply(s, Do(c, newId, now));
    hide Inv, Enabled, Apply, Settle;
    StepKeepsInv(s, Do(c, newId, now));
    InvRefines(Apply(s, Do(c, newId, now)));
  }

  lemma InvRefines(s: State)
    requires Inv(s)
    ensures Refines(s)
  {
  }

  // ------------------------------------------------------------------------------------------------- every event

  ghost predicate CallOkIn(h: seq<Commit>, c: nat, cl: Client) {
    OwnCommits(h, c, cl) && AcceptedBooked(h, cl) && Paid(h, cl)
  }

  lemma DoKeepsOwnCall(s: State, c: nat, cl: Client, newId: Id, now: nat, out: Out)
    requires Inv(s) && Runs(s, c, cl, newId, now, out) && CallOkIn(s.history, c, cl)
    ensures CallOkIn(Settle(s, c, out).history, c, out.cl)
  {
    hide Inv, Runs, OwnCommits, AcceptedBooked, Paid;
    DoKeepsOwn(s, c, cl, newId, now, out);
    DoKeepsAccepted(s, c, cl, newId, now, out);
    DoKeepsPaid(s, c, cl, newId, now, out);
    if out.log.Some? { HitsAppendPaid(s.history, out.cl, Commit(c, out.log.value)); }
  }

  lemma DoKeepsCallInv(s: State, c: nat, cl: Client, newId: Id, now: nat, out: Out)
    requires Inv(s) && CallInv(s) && Runs(s, c, cl, newId, now, out)
    ensures CallInv(Settle(s, c, out))
  {
    assert c in s.clients && cl == s.clients[c];
    assert Legal(Settle(s, c, out).history) by { RunsRefines(s, c, cl, newId, now, out); }
    assert CallOkIn(s.history, c, cl);
    hide Inv, Runs, OwnCommits, AcceptedBooked, Paid, Legal, CallInv;
    DoKeepsOwnCall(s, c, cl, newId, now, out);
    SettleKeepsCallInv(s, c, out);
  }

  lemma SettleKeepsCallInv(s: State, c: nat, out: Out)
    requires CallInv(s) && c in s.clients && Legal(Settle(s, c, out).history)
    requires CallOkIn(Settle(s, c, out).history, c, out.cl)
    ensures CallInv(Settle(s, c, out))
  {
    hide OwnCommits, AcceptedBooked, Paid, Legal;
    var s' := Settle(s, c, out);
    forall d | d in s'.clients ensures CallOkIn(s'.history, d, s'.clients[d]) {
      if d != c {
        assert CallOkIn(s.history, d, s.clients[d]);
        if out.log.Some? { OthersKeepCall(s.history, d, s.clients[d], Commit(c, out.log.value)); }
      }
    }
  }

  /** A client put in place of itself, or a new one, with nothing committed. */
  lemma PutKeepsCallInv(s: State, c: nat, cl: Client)
    requires CallInv(s) && CallOkIn(s.history, c, cl)
    ensures CallInv(Put(s, c, cl))
  {
    hide OwnCommits, AcceptedBooked, Paid;
  }

  lemma BeginKeepsCallInv(s: State, c: nat, call: Call)
    requires CallInv(s) && c !in s.clients
    ensures CallOkIn(s.history, c, StartOf(call, |s.history|))
  {
    hide MayHaveDone;
    if call.CallTransfer? { assert Lost(StartOf(call, |s.history|)) == 0; }
  }

  /** Locks apart, a client that goes nowhere, or gives its transaction up without a booking, has told the truth. */
  lemma StopKeepsCall(h: seq<Commit>, c: nat, cl: Client, cl': Client)
    requires CallOkIn(h, c, cl) && cl'.w.call == cl.w.call && cl'.w.tid == cl.w.tid && cl'.outer == cl.outer
    requires cl'.attempt == cl.attempt && cl'.clashed == cl.clashed && cl'.begun == cl.begun && cl'.epoch == cl.epoch
    requires cl'.w == cl.w || (cl'.w.row == None && cl'.w.snap == map[])
    requires cl'.pc == cl.pc || (!cl.pc.Done? && (cl'.pc == Done(Internal) || cl'.pc == Done(Invalid(true))))
    ensures CallOkIn(h, c, cl')
  {
    hide Hits, Changes;
    assert h[..|h|] == h;
    if cl.w.call.CallTransfer? { HitsMonotone(h, cl.epoch, cl.w.call.from, cl.w.call.to); }
  }

  lemma LockFailKeepsCall(h: seq<Commit>, c: nat, cl: Client)
    requires CallOkIn(h, c, cl) && cl.w.call.CallReset?
    ensures CallOkIn(h, c, LockFailed(cl))
  {
  }

  lemma StepKeepsCallInv(s: State, e: Event)
    requires Inv(s) && CallInv(s) && Enabled(s, e)
    ensures CallInv(Apply(s, e))
  {
    hide Inv, DoStatement, NextLock, Free;
    match e {
      case Begin(c, call) =>
        hide OwnCommits, AcceptedBooked, Paid;
        BeginKeepsCallInv(s, c, call);
        PutKeepsCallInv(s, c, StartOf(call, |s.history|));
      case Acquire(c) =>
        hide OwnCommits, AcceptedBooked, Paid;
        var cl := s.clients[c];
        var cl' := cl.(held := cl.held + {NextLock(s.db, cl).value});
        StopKeepsCall(s.history, c, cl, cl');
        PutKeepsCallInv(s, c, cl');
      case Do(c, newId, now) =>
        hide CallInv, Settle;
        var cl := s.clients[c];
        DoKeepsCallInv(s, c, cl, newId, now, DoStatement(s.db, cl, newId, now, |s.history|, s.external));
      case Abort(c) =>
        hide OwnCommits, AcceptedBooked, Paid;
        StopKeepsCall(s.history, c, s.clients[c], Aborted(s.clients[c]));
        PutKeepsCallInv(s, c, Aborted(s.clients[c]));
      case LockFail(c) =>
        hide OwnCommits, AcceptedBooked, Paid;
        assert s.clients[c].w.call.CallReset? by { ResetLocks(s, c); }
        LockFailKeepsCall(s.history, c, s.clients[c]);
        PutKeepsCallInv(s, c, LockFailed(s.clients[c]));
    }
  }

  lemma ResetLocks(s: State, c: nat)
    requires Inv(s) && c in s.clients && s.clients[c].pc == LockTables
    ensures s.clients[c].w.call.CallReset?
  {
    assert ClientOk(s, s.clients[c]);
    hide CallShape, HeldShape, Linked, Refines;
  }

  lemma {:induction false} CallInvAlways(external: bool, es: seq<Event>)
    requires ValidRun(external, es)
    ensures CallInv(StateAfter(external, es))
  {
    hide Enabled, Apply, OwnCommits, AcceptedBooked, Paid, Inv;
    if es != [] {
      var before := es[..|es| - 1];
      CallInvAlways(external, before);
      EveryInterleavingRefinesTheAtomicBank(external, before);
      StepKeepsCallInv(StateAfter(external, before), es[|es| - 1]);
    }
  }

  // ----------------------------------------------------------------------------------------------- the theorems

  /** Result honesty, for every run and every finished Transfer call. Nil: the transfer of that key has been booked,
      and exactly once over the whole history. An error: this call booked nothing and changed no balance. */
  lemma TransferResultsAreHonest(external: bool, es: seq<Event>, c: nat)
    requires ValidRun(external, es)
    requires var s := StateAfter(external, es);
             c in s.clients && s.clients[c].w.call.CallTransfer? && s.clients[c].pc.Done?
    ensures var s := StateAfter(external, es);
            var cl := s.clients[c];
            && (cl.pc.result.Accepted? ==>
                  && cl.w.tid.Some? && Bookings(s.history, cl.w.tid.value) == 1
                  && (cl.w.tid.value in s.db.transfers ==>
                        Booked(s.db, cl.w.tid.value) && RowFits(cl.w, s.db.transfers[cl.w.tid.value])))
            && (!cl.pc.result.Accepted? ==>
                  forall i :: 0 <= i < |s.history| && s.history[i].client == c ==>
                    (s.history[i].op.Create? || s.history[i].op.MarkFailed?))
            && (cl.w.tid == None && cl.w.call.tries == 1 ==> forall i :: 0 <= i < |s.history| ==>
                  s.history[i].client != c)
  {
    CallInvAlways(external, es);
    EveryInterleavingRefinesTheAtomicBank(external, es);
    var s := StateAfter(external, es);
    var cl := s.clients[c];
    assert ClientOk(s, cl) && CallOkIn(s.history, c, cl);
    ClientShape(s, cl);
    assert cl.w.call.tries == 1 ==> cl.outer == 0;
    if cl.w.tid.Some? { BookedAtMostOnce(s.history, cl.w.tid.value); }
    hide StateAfter, ValidRun, Inv, CallInv, Legal, Replay, PcShape, HeldShape, Select, Paid, Bookings;
  }

  /** At every moment of every run, the attempts that a Transfer call has lost are no more than the commits of other
      calls that changed a balance of its two accounts since it began: with none, its first attempt never conflicts. */
  lemma LostAttemptsAreForeign(external: bool, es: seq<Event>, c: nat)
    requires ValidRun(external, es)
    requires c in StateAfter(external, es).clients && StateAfter(external, es).clients[c].w.call.CallTransfer?
    ensures var s := StateAfter(external, es);
            var cl := s.clients[c];
            && cl.begun <= |s.history| && Lost(cl) <= HitsSince(s.history, cl, |s.history|)
            && (!(cl.pc.Done? && cl.pc.result.Accepted?) ==>
                  forall i :: 0 <= i < |s.history| && s.history[i].client == c ==>
                    !Touches(s.history[i].op, cl.w.call.from) && !Touches(s.history[i].op, cl.w.call.to))
  {
    CallInvAlways(external, es);
    var s := StateAfter(external, es);
    var cl := s.clients[c];
    assert CallOkIn(s.history, c, cl);
    HitsMonotone(s.history, cl.epoch, cl.w.call.from, cl.w.call.to);
    assert s.history[..|s.history|] == s.history;
    hide StateAfter, ValidRun, CallInv, Lost, Hits, Changes;
  }

  /** A Transfer call that ends in CONFLICT lost three attempts in each of its tries in which the key was its own, to
      as many commits of other calls on its accounts while it ran: 3 for a call of the API, 15 for a worker of the
      simulator, if its key never belonged to other parameters. */
  lemma ConflictsAreForeign(external: bool, es: seq<Event>, c: nat)
    requires ValidRun(external, es)
    requires var s := StateAfter(external, es);
             c in s.clients && s.clients[c].w.call.CallTransfer? && s.clients[c].pc == Done(Conflicted)
    ensures var s := StateAfter(external, es);
            var cl := s.clients[c];
            && cl.begun <= |s.history| && 3 * (cl.w.call.tries - cl.clashed) <= HitsSince(s.history, cl, |s.history|)
            && (forall i :: 0 <= i < |s.history| && s.history[i].client == c ==>
                    !Touches(s.history[i].op, cl.w.call.from) && !Touches(s.history[i].op, cl.w.call.to))
  {
    LostAttemptsAreForeign(external, es, c);
    EveryInterleavingRefinesTheAtomicBank(external, es);
    assert ClientOk(StateAfter(external, es), StateAfter(external, es).clients[c]);
    hide StateAfter, ValidRun, PcShape, HeldShape, Linked, Refines, HitsSince;
  }

  // ---------------------------------------------------------------------------------- Fail never loses an attempt

  lemma ReversalMatches(db: Db, cl: Client, n: nat)
    requires UpdateShape(cl, n) && cl.w.call.CallFail? && Linked(db, cl.w, cl.held)
    ensures VersionMatches(db, cl.w, UpdateAt(cl.w, n))
  {
    hide Select, NewBalance, SnapOk, Remembers;
    assert AccountRow(UpdateAt(cl.w, n)) in cl.held && UpdateAt(cl.w, n) in cl.w.snap;
  }

  lemma ConflictIsNotFails(db: Db, cl: Client, external: bool)
    requires Shape(cl, external) && cl.pc.UpdateAcc? && Linked(db, cl.w, cl.held)
    ensures DoUpdateAcc(db, cl, cl.pc.n).cl.pc != Done(VersionConflict)
  {
    UpdateReady(cl, cl.pc.n, UpdateAt(cl.w, cl.pc.n));
    assert cl.w.call.CallFail? || cl.w.call.CallTransfer? || cl.w.call.CallMutate? by { ReadyCall(cl.w, cl.held); }
    if cl.w.call.CallFail? { ReversalMatches(db, cl, cl.pc.n); }
    hide VersionMatches, UpdateAt, Shape, Linked, NewBalance;
  }

  predicate NoRawConflict(s: State) {
    forall c :: c in s.clients ==> s.clients[c].pc != Done(VersionConflict)
  }

  lemma StatementNoRawConflict(s: State, c: nat, cl: Client, newId: Id, now: nat, out: Out)
    requires Runs(s, c, cl, newId, now, out) && ClientOk(s, cl)
    ensures out.cl.pc != Done(VersionConflict)
  {
    ClientShape(s, cl);
    if cl.pc.UpdateAcc? {
      ConflictIsNotFails(s.db, cl, s.external);
      hide DoUpdateAcc, Shape, Linked, Enabled, Continues, ClientOk;
    } else {
      hide DoStatement, Shape, Linked, ClientOk;
    }
  }

  lemma StepKeepsNoRawConflict(s: State, e: Event)
    requires Inv(s) && NoRawConflict(s) && Enabled(s, e)
    ensures NoRawConflict(Apply(s, e))
  {
    hide Inv, NoRawConflict, Enabled, Apply;
    if e.Do? { DoNoRawConflict(s, e.client, e.newId, e.now); } else { QuietNoRawConflict(s, e); }
  }

  lemma QuietNoRawConflict(s: State, e: Event)
    requires NoRawConflict(s) && Enabled(s, e) && !e.Do?
    ensures NoRawConflict(Apply(s, e))
  {
    hide NextLock, Free;
  }

  lemma DoNoRawConflict(s: State, c: nat, newId: Id, now: nat)
    requires Inv(s) && NoRawConflict(s) && Enabled(s, Do(c, newId, now))
    ensures NoRawConflict(Apply(s, Do(c, newId, now)))
  {
    hide NextLock, Free, DoStatement, Typed, Shape, Linked, Refines, Exclusion, Continues;
    var cl := s.clients[c];
    assert ClientOk(s, cl);
    hide Inv, ClientOk;
    StatementNoRawConflict(s, c, cl, newId, now, DoStatement(s.db, cl, newId, now, |s.history|, s.external));
  }

  /** Fail never sees a version conflict: once both accounts are read FOR UPDATE, both optimistic updates of the
      reversal match, whatever the other clients do. */
  lemma {:induction false} FailNeverConflicts(external: bool, es: seq<Event>)
    requires ValidRun(external, es)
    ensures NoRawConflict(StateAfter(external, es))
  {
    hide Enabled, Apply, NoRawConflict, Inv;
    if es == [] {
      assert NoRawConflict(Init(external)) by { NoClientNoConflict(external); }
    } else {
      var before := es[..|es| - 1];
      FailNeverConflicts(external, before);
      EveryInterleavingRefinesTheAtomicBank(external, before);
      StepKeepsNoRawConflict(StateAfter(external, before), es[|es| - 1]);
    }
  }

  lemma NoClientNoConflict(external: bool)
    ensures NoRawConflict(Init(external))
  {
  }
}
