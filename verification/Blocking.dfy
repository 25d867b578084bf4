/** How long an account that was read ACTIVE can be counted on: exactly while nobody has blocked it for good. */
module Blocking {
  import opened Common
  import opened Ledger
  import opened Bank
  import opened BankLaws
  import opened History
  import opened Protocol
  import opened Invariant
  import opened Refinement
  import opened Steps

  /** Somebody blocked the account after the first n commits. */
  predicate BlockedSince(h: seq<Commit>, n: nat, a: Id) {
    exists i :: n <= i < |h| && h[i].op == SetStatus(a, Blocked)
  }

  predicate ActiveOrBlocked(s: State, n: nat, a: Id) {
    a in s.db.accounts && (s.db.accounts[a].status == Active || BlockedSince(s.history, n, a))
  }

  /** Deposits, withdrawals and transfers check the status of what they read; a reversal does not. */
  ghost predicate Counts(s: State, cl: Client) {
    cl.begun <= |s.history| && (!cl.w.call.CallFail? ==> forall a :: a in cl.w.snap ==> ActiveOrBlocked(s, cl.begun, a))
  }

  ghost predicate AllCount(s: State) { forall c :: c in s.clients ==> Counts(s, s.clients[c]) }

  lemma StatusStays(db: Db, op: Op, a: Id)
    requires RowsOk(db) && Guard(db, op) && a in db.accounts && a in Exec(db, op).accounts
             && op != SetStatus(a, Blocked)
    requires op.Open? ==> op.id != a
    ensures db.accounts[a].status == Active ==> Exec(db, op).accounts[a].status == Active
  {
    if op.Book? || op.Reverse? { assert RowOk(db, op.tid); }
    hide RowsOk, Booked;
  }

  /** A statement that leaves something read has committed nothing, and what it has read anew is in the tables. */
  predicate ReadsNow(db: Db, cl: Client, out: Out) {
    out.cl.w.snap != map[] ==>
      out.log == None && out.db == db
      && forall a :: a in out.cl.w.snap && a !in cl.w.snap ==> a in db.accounts && out.cl.w.snap[a] == db.accounts[a]
  }

  lemma ReadsByAccounts(db: Db, cl: Client, n: nat)
    ensures cl.pc == ReadAcc(n) ==> ReadsNow(db, cl, DoReadAcc(db, cl, n))
    ensures cl.pc == LockAcc(n) ==> ReadsNow(db, cl, DoLockAcc(db, cl, n))
    ensures cl.pc == UpdateAcc(n) ==> ReadsNow(db, cl, DoUpdateAcc(db, cl, n))
  {
    hide NewBalance, ReadAt, UpdateAt, VersionMatches, Continues;
  }

  lemma ReadsByRow(db: Db, cl: Client, now: nat, clock: nat, external: bool)
    requires Typed(cl)
    ensures cl.pc.LockRow? ==> ReadsNow(db, cl, DoLockRow(db, cl, clock, external))
    ensures cl.pc.CountBooked? ==> ReadsNow(db, cl, DoCountBooked(db, cl, external))
    ensures cl.pc.AddEntry? ==> ReadsNow(db, cl, DoAddEntry(db, cl, cl.pc.n, external))
    ensures cl.pc.WriteRow? ==> ReadsNow(db, cl, DoWriteRow(db, cl, now))
    ensures cl.pc.Fetch? ==> ReadsNow(db, cl, DoFetch(db, cl))
  {
    hide Select, NewEntry, Continues;
  }

  lemma ReadsByKey(db: Db, cl: Client, newId: Id, now: nat, external: bool)
    requires Typed(cl)
    ensures cl.pc.Validate? ==> ReadsNow(db, cl, DoValidate(db, cl))
    ensures cl.pc.Insert? ==> ReadsNow(db, cl, DoInsert(db, cl, newId, now))
    ensures cl.pc.Find? ==> ReadsNow(db, cl, DoFind(db, cl))
    ensures cl.pc.MarkFail? ==> ReadsNow(db, cl, DoMarkFail(db, cl))
    ensures cl.pc.CommitTx? ==> ReadsNow(db, cl, DoCommit(db, cl, external))
  {
    hide KeyTaken, ByKey, RowIs, Publish, CommittedOp, ParamsValid, Continues;
  }

  lemma ReadsByOthers(db: Db, cl: Client, newId: Id, now: nat, clock: nat, external: bool)
    requires Typed(cl) && !cl.pc.ReadAcc? && !cl.pc.LockAcc? && !cl.pc.UpdateAcc?
    requires cl.pc.OpenAcc? || cl.pc.WriteAccStatus? || cl.pc.TruncateAll? ==> cl.w.snap == map[]
    ensures ReadsNow(db, cl, DoStatement(db, cl, newId, now, clock, external))
  {
    ReadsByRow(db, cl, now, clock, external);
    ReadsByKey(db, cl, newId, now, external);
    hide DoReadAcc, DoLockAcc, DoUpdateAcc, DoLockRow, DoCountBooked;
    hide DoAddEntry, DoWriteRow, DoFetch, DoValidate, DoInsert, DoFind;
    hide DoMarkFail, DoCommit, Continues;
  }

  lemma RestUnread(cl: Client, external: bool)
    requires Shape(cl, external)
    ensures cl.pc.OpenAcc? || cl.pc.WriteAccStatus? || cl.pc.TruncateAll? ==> cl.w.snap == map[]
  {
    hide CallShape, HeldShape;
  }

  lemma StatementReadsNow(db: Db, cl: Client, newId: Id, now: nat, clock: nat, external: bool)
    requires Typed(cl) && Shape(cl, external)
    ensures ReadsNow(db, cl, DoStatement(db, cl, newId, now, clock, external))
  {
    hide ReadsNow, Shape, DoReadAcc, DoLockAcc, DoUpdateAcc;
    if cl.pc.ReadAcc? || cl.pc.LockAcc? || cl.pc.UpdateAcc? { ReadsByAccounts(db, cl, cl.pc.n); }
    else { RestUnread(cl, external); ReadsByOthers(db, cl, newId, now, clock, external); }
  }

  lemma ReadActive(cl: Client, external: bool)
    requires Shape(cl, external) && !cl.w.call.CallFail?
    ensures forall a :: a in cl.w.snap ==> cl.w.snap[a].status == Active
  {
    hide HeldShape, CallShape, RowRead, NewBalance, NewEntries, RowsHeld;
  }

  // ---------------------------------------------------------------------------------------------------- every step

  /** One more commit, by anybody. */
  lemma CommitKeepsActive(s: State, op: Op, k: nat, s': State, n: nat, a: Id)
    requires DbInv(s.db) && StepIs(s, k, Some(op), s') && ActiveOrBlocked(s, n, a)
    requires n <= |s.history| && a in s'.db.accounts
    ensures ActiveOrBlocked(s', n, a)
  {
    assert forall i :: 0 <= i < |s.history| ==> s'.history[i] == s.history[i];
    assert s'.history[|s.history|] == Commit(k, op);
    assert op.Open? ==> op.id != a;
    hide DbInv, RowsOk, Guard, Exec;
    if op != SetStatus(a, Blocked) { StatusStays(s.db, op, a); }
  }

  lemma OthersCount(s: State, e: Event, d: nat)
    requires Inv(s) && AllCount(s) && Enabled(s, e) && d in s.clients && d != e.client
    ensures d in Apply(s, e).clients && Counts(Apply(s, e), s.clients[d]) && Apply(s, e).clients[d] == s.clients[d]
  {
    var s', cl := Apply(s, e), s.clients[d];
    assert Counts(s, cl);
    StepCommits(s, e);
    StepKeepsInv(s, e);
    ClientsStay(s, e);
    var op := OpOf(s, e);
    hide Apply, OpOf, Enabled;
    assert ClientOk(s', cl);
    hide Inv, Shape;
    forall a | a in cl.w.snap && !cl.w.call.CallFail? ensures ActiveOrBlocked(s', cl.begun, a) {
      assert a in s'.db.accounts by { SeenIsThere(s', cl, a); }
      if op.Some? { CommitKeepsActive(s, op.value, e.client, s', cl.begun, a); }
    }
    hide StepIs, Linked, ActiveOrBlocked;
    assert |s.history| <= |s'.history| by { HistoryGrows(s, e.client, op, s'); }
  }

  lemma HistoryGrows(s: State, c: nat, op: Option<Op>, s': State)
    requires StepIs(s, c, op, s')
    ensures |s.history| <= |s'.history|
  {
  }

  lemma SeenIsThere(s: State, cl: Client, a: Id)
    requires Linked(s.db, cl.w, cl.held) && a in cl.w.snap
    ensures a in s.db.accounts
  {
    assert SnapOk(s.db, a, cl.w.snap[a]);
  }

  lemma OwnCounts(s: State, c: nat, newId: Id, now: nat)
    requires Inv(s) && Enabled(s, Do(c, newId, now)) && Counts(s, s.clients[c])
    ensures var out := DoStatement(s.db, s.clients[c], newId, now, |s.history|, s.external);
            Counts(Settle(s, c, out), out.cl)
  {
    hide DbInv, DoStatement, Shape, Linked, NextLock, RowsOk, Refines, Exclusion, Continues;
    var cl := s.clients[c];
    var out := DoStatement(s.db, cl, newId, now, |s.history|, s.external);
    assert ClientOk(s, cl);
    InvKnowsDb(s);
    hide Inv, ClientsOk;
    assert StepOkShape(s, cl, newId, now, out) by { ShapeAfter(s, cl, newId, now, out); }
    StatementReadsNow(s.db, cl, newId, now, |s.history|, s.external);
    if !out.cl.w.call.CallFail? { ReadActive(out.cl, s.external); }
  }

  predicate StepOkShape(s: State, cl: Client, newId: Id, now: nat, out: Out) {
    Shape(out.cl, s.external) && out.cl.w.call == cl.w.call && out.cl.begun == cl.begun
  }

  lemma ShapeAfter(s: State, cl: Client, newId: Id, now: nat, out: Out)
    requires DbInv(s.db) && ClientOk(s, cl) && Typed(cl) && !cl.pc.Done?
    requires newId !in s.db.issued && NextLock(s.db, cl) == None
    requires out == DoStatement(s.db, cl, newId, now, |s.history|, s.external)
    ensures StepOkShape(s, cl, newId, now, out)
  {
    hide Shape, Linked, DoStatement, NextLock, Effect, DbInv;
    assert RowsOk(s.db) by { InvRows(s.db); }
    StatementOk(s.db, cl, newId, now, |s.history|, s.external);
  }

  lemma StepKeepsCounts(s: State, e: Event)
    requires Inv(s) && AllCount(s) && Enabled(s, e)
    ensures AllCount(Apply(s, e))
  {
    hide Inv, Counts, Free, NextLock, DoStatement, Typed;
    ClientsStay(s, e);
    OwnEvent(s, e);
    var s' := Apply(s, e);
    forall d | d in s'.clients ensures Counts(s', s'.clients[d]) {
      if d in s.clients && d != e.client { OthersCount(s, e, d); }
    }
  }

  lemma OwnEvent(s: State, e: Event)
    requires Inv(s) && AllCount(s) && Enabled(s, e)
    ensures e.client in Apply(s, e).clients && Counts(Apply(s, e), Apply(s, e).clients[e.client])
  {
    hide Inv, Free, NextLock, DoStatement, Typed, ActiveOrBlocked;
    if !e.Begin? { assert Counts(s, s.clients[e.client]); }
    if e.Do? { OwnCounts(s, e.client, e.newId, e.now); }
    else if e.Acquire? { SameSnap(s, s.clients[e.client], Apply(s, e), Apply(s, e).clients[e.client]); }
  }

  lemma SameSnap(s: State, cl: Client, s': State, cl': Client)
    requires Counts(s, cl) && s'.db == s.db && s'.history == s.history
    requires cl'.w == cl.w && cl'.begun == cl.begun
    ensures Counts(s', cl')
  {
  }

  lemma {:induction false} AllCountAlways(external: bool, es: seq<Event>)
    requires ValidRun(external, es)
    ensures AllCount(StateAfter(external, es))
  {
    hide Enabled, Apply, Inv, Counts;
    if es != [] {
      var s, e := LastStep(external, es);
      AllCountAlways(external, es[..|es| - 1]);
      StepKeepsCounts(s, e);
    }
  }

  // --------------------------------------------------------------------------------- the status in the history

  /** Somebody blocked the account after the first n commits, and nobody activated it again. */
  predicate StillBlockedSince(h: seq<Commit>, n: nat, a: Id) {
    exists i :: n <= i < |h| && BlocksForGood(h, i, a)
  }

  predicate BlocksForGood(h: seq<Commit>, i: nat, a: Id)
    requires i < |h|
  {
    h[i].op == SetStatus(a, Blocked) && forall j :: i < j < |h| ==> h[j].op != SetStatus(a, Active)
  }

  lemma StatusStep(db: Db, op: Op, a: Id)
    requires RowsOk(db) && IdsIssued(db) && Guard(db, op) && a in Exec(db, op).accounts
    ensures op.SetStatus? && op.account == a ==> Exec(db, op).accounts[a].status == op.status
    ensures !(op.SetStatus? && op.account == a) ==>
              if a in db.accounts then Exec(db, op).accounts[a].status == db.accounts[a].status
              else Exec(db, op).accounts[a].status == Active && op.Open? && a !in db.issued
  {
    if op.Book? || op.Reverse? { assert RowOk(db, op.tid); }
    hide RowsOk, Booked;
  }

  lemma StillBlockedAppend(h: seq<Commit>, k: Commit, a: Id)
    ensures StillBlockedSince(h + [k], 0, a) <==>
            k.op == SetStatus(a, Blocked) || (StillBlockedSince(h, 0, a) && k.op != SetStatus(a, Active))
  {
    var h' := h + [k];
    if StillBlockedSince(h', 0, a) {
      var i: nat :| i < |h'| && BlocksForGood(h', i, a);
      if i < |h| {
        assert h'[|h|] == k && forall j :: 0 <= j < |h| ==> h'[j] == h[j];
        assert BlocksForGood(h, i, a);
      }
    }
    if k.op == SetStatus(a, Blocked) { assert BlocksForGood(h', |h|, a); }
    if StillBlockedSince(h, 0, a) && k.op != SetStatus(a, Active) {
      var i: nat :| i < |h| && BlocksForGood(h, i, a);
      assert BlocksForGood(h', i, a);
    }
  }

  /** The status of a live account is that of the last SetStatus on it. */
  lemma {:induction false} StatusIsTheLastSet(h: seq<Commit>, a: Id)
    requires Legal(h)
    ensures a !in Replay(h).issued ==> !StillBlockedSince(h, 0, a)
    ensures a in Replay(h).accounts ==> (Replay(h).accounts[a].status == Blocked <==> StillBlockedSince(h, 0, a))
  {
    if h != [] {
      var db, op := Replay(Front(h)), Last(h).op;
      StatusIsTheLastSet(Front(h), a);
      LegalHistoryKeepsDbInv(Front(h));
      ExecIssued(db, op);
      assert h == Front(h) + [Last(h)];
      StillBlockedAppend(Front(h), Last(h), a);
      if a in Replay(h).accounts { StatusStep(db, op, a); }
      assert op.SetStatus? ==> op.account in db.issued;
      hide Exec, StillBlockedSince, DbInv, Legal;
    }
  }

  lemma BlockedLately(h: seq<Commit>, n: nat, a: Id)
    requires StillBlockedSince(h, 0, a) && BlockedSince(h, n, a)
    ensures StillBlockedSince(h, n, a)
  {
    var i: nat :| i < |h| && BlocksForGood(h, i, a);
    var k: nat :| n <= k < |h| && h[k].op == SetStatus(a, Blocked);
    if i < n { assert BlocksForGood(h, k, a); }
  }

  /** At every moment of every run, up to its COMMIT, an account that a transfer, deposit or withdrawal has read is
      BLOCKED if and only if somebody has blocked it since the call began and nobody has activated it again after
      that. */
  lemma BlockedExactlySince(external: bool, es: seq<Event>, c: nat, a: Id)
    requires ValidRun(external, es) && c in StateAfter(external, es).clients
    requires !StateAfter(external, es).clients[c].w.call.CallFail? && a in StateAfter(external, es).clients[c].w.snap
    ensures var s := StateAfter(external, es);
            && a in s.db.accounts && s.clients[c].begun <= |s.history|
            && (s.db.accounts[a].status == Blocked <==> StillBlockedSince(s.history, s.clients[c].begun, a))
  {
    AllCountAlways(external, es);
    EveryInterleavingRefinesTheAtomicBank(external, es);
    var s := StateAfter(external, es);
    assert Counts(s, s.clients[c]);
    StatusIsTheLastSet(s.history, a);
    hide StateAfter, ValidRun, Inv, Legal, Replay;
    if s.db.accounts[a].status == Blocked { BlockedLately(s.history, s.clients[c].begun, a); }
  }
}
