/** Where settlements come from outside, a new transfer is answered PENDING. */
module Awaiting {
  import opened Common
  import opened Ledger
  import opened Bank
  import opened History
  import opened Protocol
  import opened Invariant
  import opened Refinement
  import opened Steps
  import Calls
  import Outcomes

  /** Client c has inserted a transfer. */
  predicate Maker(h: seq<Commit>, c: nat) { exists i :: 0 <= i < |h| && h[i].client == c && h[i].op.Create? }

  /** A call in its first try that has made its transfer itself is not told that it is SETTLED. */
  predicate NotSettled(h: seq<Commit>, c: nat, cl: Client) {
    cl.w.call.CallTransfer? && cl.outer == 0 && Maker(h, c) ==>
      !cl.pc.Validate? && !cl.pc.Insert? && !cl.pc.Find? && cl.pc != Done(Accepted(Settled))
  }

  predicate NoneSettled(s: State) {
    && (forall c :: c in s.clients ==> NotSettled(s.history, c, s.clients[c]))
    && (forall i :: 0 <= i < |s.history| ==> s.history[i].client in s.clients)
  }

  predicate AtKey(pc: Pc) { pc.Validate? || pc.Insert? || pc.Find? }

  /** Past its INSERT a call is told PENDING, or starts over; and only the INSERT makes a transfer. */
  predicate Pends(cl: Client, out: Out) {
    && (!AtKey(cl.pc) ==> (AtKey(out.cl.pc) ==> out.cl.outer > 0) && out.cl.pc != Done(Accepted(Settled)))
    && (out.log.Some? && out.log.value.Create? ==> !AtKey(out.cl.pc) && !out.cl.pc.Done?)
    && cl.outer <= out.cl.outer
  }

  lemma KeyPends(db: Db, cl: Client, newId: Id, now: nat)
    requires cl.w.call.CallTransfer? && AtKey(cl.pc)
    ensures Pends(cl, DoValidate(db, cl)) && Pends(cl, DoInsert(db, cl, newId, now)) && Pends(cl, DoFind(db, cl))
  {
    hide KeyTaken, ByKey, RowIs, ParamsValid, Continues, RowOf;
  }

  lemma RowPends(db: Db, cl: Client, clock: nat)
    requires cl.w.call.CallTransfer? && cl.w.tid.Some?
    ensures cl.pc.LockRow? ==> Pends(cl, DoLockRow(db, cl, clock, true))
    ensures cl.pc.CountBooked? ==> Pends(cl, DoCountBooked(db, cl, true))
  {
    hide Select, Continues;
  }

  lemma AccountsPend(db: Db, cl: Client, n: nat)
    requires cl.w.call.CallTransfer?
    ensures cl.pc == ReadAcc(n) ==> Pends(cl, DoReadAcc(db, cl, n))
    ensures cl.pc == LockAcc(n) ==> Pends(cl, DoLockAcc(db, cl, n))
    ensures cl.pc == UpdateAcc(n) ==> Pends(cl, DoUpdateAcc(db, cl, n))
  {
    hide NewBalance, VersionMatches, ReadAt, UpdateAt, Continues;
  }

  lemma OthersPend(db: Db, cl: Client, newId: Id, now: nat, clock: nat)
    requires Typed(cl) && cl.w.call.CallTransfer? && !AtKey(cl.pc) && !cl.pc.Done?
    requires !cl.pc.LockRow? && !cl.pc.CountBooked? && !cl.pc.ReadAcc? && !cl.pc.LockAcc? && !cl.pc.UpdateAcc?
    ensures Pends(cl, DoStatement(db, cl, newId, now, clock, true))
  {
    hide DoReadAcc, DoLockAcc, DoUpdateAcc, DoValidate, DoInsert, DoFind, DoLockRow, DoCountBooked;
    hide NewEntry, RowWriteOf, Publish, Continues;
  }

  lemma StatementPends(db: Db, cl: Client, newId: Id, now: nat, clock: nat)
    requires Typed(cl) && cl.w.call.CallTransfer? && !cl.pc.Done?
    ensures Pends(cl, DoStatement(db, cl, newId, now, clock, true))
  {
    hide DoReadAcc, DoLockAcc, DoUpdateAcc, DoValidate, DoInsert, DoFind, DoLockRow, DoCountBooked, Pends;
    if AtKey(cl.pc) { KeyPends(db, cl, newId, now); }
    else if cl.pc.LockRow? || cl.pc.CountBooked? { RowPends(db, cl, clock); }
    else if cl.pc.ReadAcc? || cl.pc.LockAcc? || cl.pc.UpdateAcc? { AccountsPend(db, cl, cl.pc.n); }
    else { OthersPend(db, cl, newId, now, clock); hide DoStatement; }
  }

  lemma DoKeepsNoneSettled(s: State, c: nat, newId: Id, now: nat)
    requires Enabled(s, Do(c, newId, now)) && s.external && NotSettled(s.history, c, s.clients[c])
    ensures var s' := Apply(s, Do(c, newId, now)); c in s'.clients && NotSettled(s'.history, c, s'.clients[c])
  {
    var cl := s.clients[c];
    var out := DoStatement(s.db, cl, newId, now, |s.history|, s.external);
    assert Typed(cl) && !cl.pc.Done?;
    hide NextLock, Typed, DoStatement, Pends, Maker;
    if cl.w.call.CallTransfer? { StatementPends(s.db, cl, newId, now, |s.history|); }
    MakerMoves(s.history, c, cl, out);
  }

  lemma MakerMoves(h: seq<Commit>, c: nat, cl: Client, out: Out)
    requires NotSettled(h, c, cl) && out.cl.w.call == cl.w.call && (cl.w.call.CallTransfer? ==> Pends(cl, out))
    ensures NotSettled(if out.log.Some? then h + [Commit(c, out.log.value)] else h, c, out.cl)
  {
    if out.log.Some? && Maker(h + [Commit(c, out.log.value)], c) && !out.log.value.Create? {
      var h' := h + [Commit(c, out.log.value)];
      var i :| 0 <= i < |h'| && h'[i].client == c && h'[i].op.Create?;
      assert h[i] == h'[i];
    }
  }

  lemma StepKeepsNoneSettled(s: State, e: Event)
    requires Inv(s) && Enabled(s, e) && s.external && NoneSettled(s)
    ensures NoneSettled(Apply(s, e))
  {
    assert e.Do? ==> e.client in s.clients && NotSettled(s.history, e.client, s.clients[e.client]);
    hide Inv, Enabled, Apply, NoneSettled, NotSettled;
    if e.Do? { DoKeepsNoneSettled(s, e.client, e.newId, e.now); } else { QuietStays(s, e); }
    ClientsStay(s, e);
    NewCommits(s, e);
    OthersKeepNoneSettled(s, e.client, Apply(s, e));
  }

  /** What an event adds to the history is its own client's. */
  lemma NewCommits(s: State, e: Event)
    requires Inv(s) && Enabled(s, e)
    ensures var h, h' := s.history, Apply(s, e).history;
            h <= h' && forall i :: |h| <= i < |h'| ==> h'[i].client == e.client
  {
    hide Inv, Enabled, Apply, OpOf;
    StepCommits(s, e);
  }

  lemma OthersKeepNoneSettled(s: State, c: nat, s': State)
    requires NoneSettled(s) && s.history <= s'.history && s.clients.Keys <= s'.clients.Keys
    requires forall i :: |s.history| <= i < |s'.history| ==> s'.history[i].client == c
    requires forall d :: d in s'.clients && d != c ==> d in s.clients && s'.clients[d] == s.clients[d]
    requires c in s'.clients && NotSettled(s'.history, c, s'.clients[c])
    ensures NoneSettled(s')
  {
    hide NotSettled;
    forall d | d in s'.clients ensures NotSettled(s'.history, d, s'.clients[d]) {
      if d != c { OthersNotSettled(s.history, s'.history, d, s.clients[d]); }
    }
    forall i | 0 <= i < |s'.history| ensures s'.history[i].client in s'.clients {
      if i < |s.history| { assert s'.history[i] == s.history[i]; }
    }
  }

  lemma OthersNotSettled(h: seq<Commit>, h': seq<Commit>, d: nat, cl: Client)
    requires NotSettled(h, d, cl) && h <= h' && forall i :: |h| <= i < |h'| ==> h'[i].client != d
    ensures NotSettled(h', d, cl)
  {
    if Maker(h', d) {
      var i :| 0 <= i < |h'| && h'[i].client == d && h'[i].op.Create?;
      assert h[i] == h'[i];
    }
  }

  /** Beginning, locking and failing. */
  lemma QuietStays(s: State, e: Event)
    requires Inv(s) && Enabled(s, e) && NoneSettled(s) && !e.Do?
    ensures Apply(s, e).history == s.history && e.client in Apply(s, e).clients
    ensures NotSettled(s.history, e.client, Apply(s, e).clients[e.client])
  {
    hide Inv, NextLock, Free;
    if e.LockFail? { Calls.ResetLocks(s, e.client); }
  }

  lemma {:induction false} NoneSettledAlways(es: seq<Event>)
    requires ValidRun(true, es)
    ensures NoneSettled(StateAfter(true, es))
  {
    hide Enabled, Apply, Inv, NotSettled;
    if es != [] {
      var s, e := LastStep(true, es);
      NoneSettledAlways(es[..|es| - 1]);
      ExternalStays(true, es[..|es| - 1]);
      StepKeepsNoneSettled(s, e);
    }
  }

  /** Where settlements come from outside, a call that has made its transfer itself, and is accepted, is told that it is
      PENDING, though it may have been settled by then. */
  lemma NewTransfersArePending(es: seq<Event>, c: nat)
    requires ValidRun(true, es) && c in StateAfter(true, es).clients && Maker(StateAfter(true, es).history, c)
    requires var cl := StateAfter(true, es).clients[c];
             cl.w.call.CallTransfer? && cl.w.call.tries == 1 && cl.pc.Done? && cl.pc.result.Accepted?
    ensures StateAfter(true, es).clients[c].pc == Done(Accepted(Pending))
  {
    NoneSettledAlways(es);
    var s := StateAfter(true, es);
    Outcomes.AnswersAreTrue(true, es, c);
    EveryInterleavingRefinesTheAtomicBank(true, es);
    assert ClientOk(s, s.clients[c]) && NotSettled(s.history, c, s.clients[c]);
    hide StateAfter, ValidRun, Inv, PcShape, HeldShape, Linked, Maker;
  }
}
