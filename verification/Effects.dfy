/** What calls other than Transfer have committed when they return: at most one operation, the one they were for. */
module Effects {
  import opened Common
  import opened Ledger
  import opened Bank
  import opened History
  import opened Protocol
  import opened Invariant
  import opened Statements
  import opened Refinement
  import opened Steps
  import Locks

  /** The operations that client c has committed. */
  function Own(h: seq<Commit>, c: nat): seq<Op> {
    if h == [] then [] else Own(Front(h), c) + (if Last(h).client == c then [Last(h).op] else [])
  }

  lemma OwnAppend(h: seq<Commit>, k: Commit, c: nat)
    ensures Own(h + [k], c) == Own(h, c) + (if k.client == c then [k.op] else [])
  {
    assert Front(h + [k]) == h;
  }

  /** The operation that a call is for. */
  predicate IsFor(call: Call, op: Op) {
    match call
    case CallMutate(a, delta, _) => op == Mutate(a, delta)
    case CallSettle(t, ref) =>
      op.Confirm? && op.tid == t && (ref != "" ==> op.ref == Some(ref)) && (ref == "" ==> op.ref == None)
    case CallFail(t) => (op.Void? || op.Reverse?) && op.tid == t
    case CallOpen => op.Open?
    case CallSetStatus(a, status) => op == SetStatus(a, status)
    case CallReset => op == Truncate
    case CallTransfer(_, _, _, _, _) => true
  }

  /** Settle and Fail commit before they fetch the transfer for their answer; the others end with their commit. */
  predicate MayHaveCommitted(cl: Client) {
    || cl.pc == Done(Completed)
    || ((cl.w.call.CallSettle? || cl.w.call.CallFail?)
        && (cl.pc.Fetch? || cl.pc == Done(NotFound) || cl.pc == Done(Internal)))
  }

  /** Deposits, withdrawals, openings, blockings and resets that completed have committed. */
  predicate MustHaveCommitted(cl: Client) {
    cl.pc == Done(Completed) && !cl.w.call.CallSettle? && !cl.w.call.CallFail? && !cl.w.call.CallTransfer?
  }

  predicate Exact(ops: seq<Op>, cl: Client) {
    !cl.w.call.CallTransfer? ==>
      && |ops| <= 1 && (ops != [] ==> IsFor(cl.w.call, ops[0]) && MayHaveCommitted(cl))
      && (MustHaveCommitted(cl) ==> |ops| == 1)
  }

  ghost predicate AllExact(s: State) {
    && (forall c :: c in s.clients ==> Exact(Own(s.history, c), s.clients[c]))
    && (forall i :: 0 <= i < |s.history| ==> s.history[i].client in s.clients)
  }

  lemma {:induction false} NoneOwned(h: seq<Commit>, c: nat)
    requires forall i :: 0 <= i < |h| ==> h[i].client != c
    ensures Own(h, c) == []
  {
    if h != [] { NoneOwned(Front(h), c); }
  }

  /** A statement commits what its call is for, on its way out; and no call completes without. */
  predicate Ending(cl: Client, out: Out) {
    !cl.w.call.CallTransfer? ==>
      && (!MayHaveCommitted(cl) || cl.pc.Fetch?)
      && (out.log.Some? ==> !cl.pc.Fetch? && IsFor(cl.w.call, out.log.value) && MayHaveCommitted(out.cl))
      && (MustHaveCommitted(out.cl) ==> out.log.Some?)
      && (cl.pc.Fetch? ==> MayHaveCommitted(out.cl))
  }

  lemma MutateEnds(db: Db, cl: Client, newId: Id, now: nat, clock: nat, external: bool)
    requires Shape(cl, external) && Typed(cl) && cl.w.call.CallMutate? && !cl.pc.Done?
    ensures Ending(cl, DoStatement(db, cl, newId, now, clock, external))
  {
    Locks.MutatePcs(cl, external);
    hide Shape, NewBalance, Publish, NewEntry, Continues, VersionMatches, ReadAt, UpdateAt;
    hide DoInsert, DoFind, DoLockRow, DoCountBooked, DoLockAcc;
  }

  lemma SmallEnds(db: Db, cl: Client, newId: Id, now: nat, clock: nat, external: bool)
    requires Shape(cl, external) && Typed(cl) && !cl.pc.Done?
    requires cl.w.call.CallOpen? || cl.w.call.CallSetStatus? || cl.w.call.CallReset?
    ensures Ending(cl, DoStatement(db, cl, newId, now, clock, external))
  {
    SmallPcs(cl, external);
    hide Shape, Continues;
    hide DoInsert, DoFind, DoLockRow, DoCountBooked, DoLockAcc, DoReadAcc, DoUpdateAcc, DoCommit;
  }

  lemma SmallPcs(cl: Client, external: bool)
    requires Shape(cl, external) && !cl.pc.Done?
    requires cl.w.call.CallOpen? || cl.w.call.CallSetStatus? || cl.w.call.CallReset?
    ensures (cl.w.call.CallOpen? && cl.pc.OpenAcc?) || (cl.w.call.CallSetStatus? && cl.pc.WriteAccStatus?)
            || (cl.w.call.CallReset? && (cl.pc.LockTables? || cl.pc.TruncateAll?))
  {
    if cl.pc.UpdateAcc? || cl.pc.AddEntry? { ReadyCall(cl.w, cl.held); }
    hide HeldShape, CallShape, Counted, Reads, RowRead, Ready, Posted, Updated, NewEntries;
  }

  lemma RowCommits(db: Db, cl: Client, external: bool)
    requires Shape(cl, external) && cl.pc.CommitTx? && (cl.w.call.CallSettle? || cl.w.call.CallFail?)
    ensures Ending(cl, DoCommit(db, cl, external))
  {
    CommitWrites(cl, external);
    hide Shape, Publish, Continues, NewEntry;
  }

  lemma CommitWrites(cl: Client, external: bool)
    requires Shape(cl, external) && cl.pc.CommitTx?
    ensures cl.w.call.CallSettle? ==>
              cl.w.tid == Some(cl.w.call.settled) && (cl.write.WriteSettled? ==> cl.write.ref == RefArg(cl.w.call.ref))
    ensures cl.w.call.CallFail? ==> cl.w.tid == Some(cl.w.call.failed)
  {
    hide HeldShape, Counted, RowRead, Posted, WriteShape;
  }

  lemma RowEnds(db: Db, cl: Client, newId: Id, now: nat, clock: nat, external: bool)
    requires Shape(cl, external) && Typed(cl) && !cl.pc.Done? && (cl.w.call.CallSettle? || cl.w.call.CallFail?)
    ensures Ending(cl, DoStatement(db, cl, newId, now, clock, external))
  {
    RowPcs(cl, external);
    if cl.pc.CommitTx? {
      RowCommits(db, cl, external);
      hide Ending, DoCommit, Shape;
    } else if cl.pc.LockRow? || cl.pc.CountBooked? || cl.pc.Fetch? {
      RowReadsEnd(db, cl, newId, now, clock, external);
      hide Ending, DoStatement, Shape;
    } else {
      hide Shape, NewBalance, NewEntry, Continues, VersionMatches, ReadAt, UpdateAt, DoCommit, DoInsert, DoFind;
      hide DoLockRow, DoCountBooked;
    }
  }

  lemma RowReadsEnd(db: Db, cl: Client, newId: Id, now: nat, clock: nat, external: bool)
    requires Typed(cl) && (cl.w.call.CallSettle? || cl.w.call.CallFail?)
    requires cl.pc.LockRow? || cl.pc.CountBooked? || cl.pc.Fetch?
    ensures Ending(cl, DoStatement(db, cl, newId, now, clock, external))
  {
    hide Continues, Select, DoCommit, DoInsert, DoFind, DoLockAcc, DoUpdateAcc, DoAddEntry, DoReadAcc;
  }

  lemma RowPcs(cl: Client, external: bool)
    requires Shape(cl, external) && !cl.pc.Done? && (cl.w.call.CallSettle? || cl.w.call.CallFail?)
    ensures cl.pc.LockRow? || cl.pc.CountBooked? || cl.pc.LockAcc? || cl.pc.UpdateAcc? || cl.pc.AddEntry?
            || cl.pc.WriteRow?
            || cl.pc.CommitTx? || cl.pc.Fetch?
  {
    hide HeldShape, CallShape, Counted, Reads, RowRead, Ready, Posted, Updated, NewEntries, WriteShape, CommitShape;
  }

  lemma StatementEnds(db: Db, cl: Client, newId: Id, now: nat, clock: nat, external: bool)
    requires Shape(cl, external) && Typed(cl) && !cl.pc.Done?
    ensures Ending(cl, DoStatement(db, cl, newId, now, clock, external))
  {
    if cl.w.call.CallMutate? { MutateEnds(db, cl, newId, now, clock, external); }
    else if cl.w.call.CallSettle? || cl.w.call.CallFail? { RowEnds(db, cl, newId, now, clock, external); }
    else if !cl.w.call.CallTransfer? { SmallEnds(db, cl, newId, now, clock, external); }
    hide Shape, DoStatement;
  }

  lemma ExactMoves(ops: seq<Op>, cl: Client, out: Out)
    requires Exact(ops, cl) && Ending(cl, out) && out.cl.w.call == cl.w.call && !cl.pc.Done?
    ensures Exact(ops + (if out.log.Some? then [out.log.value] else []), out.cl)
  {
    hide IsFor;
  }

  lemma StepKeepsExact(s: State, e: Event)
    requires Inv(s) && AllExact(s) && Enabled(s, e)
    ensures AllExact(Apply(s, e))
  {
    if e.Do? { DoKeepsExact(s, e.client, e.newId, e.now); } else { QuietKeepsExact(s, e); }
  }

  lemma DoKeepsExact(s: State, c: nat, newId: Id, now: nat)
    requires Inv(s) && AllExact(s) && Enabled(s, Do(c, newId, now))
    ensures AllExact(Apply(s, Do(c, newId, now)))
  {
    var cl := s.clients[c];
    var out := DoStatement(s.db, cl, newId, now, |s.history|, s.external);
    assert ClientOk(s, cl) && Exact(Own(s.history, c), cl);
    hide Inv, Shape, Linked, DoStatement, NextLock, Typed, Ending, Exact, AllExact, Own;
    StatementEnds(s.db, cl, newId, now, |s.history|, s.external);
    ExactMoves(Own(s.history, c), cl, out);
    SettleKeepsExact(s, c, out);
  }

  lemma SettleKeepsExact(s: State, c: nat, out: Out)
    requires AllExact(s) && c in s.clients
    requires Exact(Own(s.history, c) + (if out.log.Some? then [out.log.value] else []), out.cl)
    ensures AllExact(Settle(s, c, out))
  {
    hide Exact, Own;
    var s' := Settle(s, c, out);
    forall d | d in s'.clients ensures Exact(Own(s'.history, d), s'.clients[d]) {
      if out.log.Some? { OwnAppend(s.history, Commit(c, out.log.value), d); }
      assert Own(s.history, d) + [] == Own(s.history, d);
      if d != c { assert Exact(Own(s.history, d), s.clients[d]); }
    }
  }

  lemma PutKeepsExact(s: State, c: nat, cl: Client)
    requires AllExact(s) && Exact(Own(s.history, c), cl)
    ensures AllExact(Put(s, c, cl))
  {
    hide Exact, Own;
  }

  lemma QuietKeepsExact(s: State, e: Event)
    requires Inv(s) && AllExact(s) && Enabled(s, e) && !e.Do?
    ensures AllExact(Apply(s, e))
  {
    hide NextLock, Free, Exact, Inv, AllExact, CallOk;
    if e.Begin? {
      StartsExact(s, e.client, e.call);
      PutKeepsExact(s, e.client, StartOf(e.call, |s.history|));
    } else {
      var cl' := Apply(s, e).clients[e.client];
      Stays(s, e);
      PutKeepsExact(s, e.client, cl');
    }
  }

  lemma StartsExact(s: State, c: nat, call: Call)
    requires AllExact(s) && c !in s.clients
    ensures Exact(Own(s.history, c), StartOf(call, |s.history|))
  {
    NoneOwned(s.history, c);
  }

  lemma Stays(s: State, e: Event)
    requires Inv(s) && AllExact(s) && Enabled(s, e) && !e.Do? && !e.Begin?
    ensures Exact(Own(s.history, e.client), Apply(s, e).clients[e.client])
  {
    var cl := s.clients[e.client];
    assert ClientOk(s, cl) && Exact(Own(s.history, e.client), cl);
    hide Inv, NextLock, Free, Linked, Exact, AllExact, Shape, Own;
    match e {
      case Acquire(_) => LockKeeps(Own(s.history, e.client), cl, NextLock(s.db, cl).value);
      case LockFail(_) => LockFailKeeps(Own(s.history, e.client), cl, s.external);
      case Abort(_) => AbortKeeps(Own(s.history, e.client), cl, s.external);
    }
  }

  lemma LockKeeps(ops: seq<Op>, cl: Client, l: Lock)
    requires Exact(ops, cl)
    ensures Exact(ops, cl.(held := cl.held + {l}))
  {
    hide IsFor;
  }

  lemma LockFailKeeps(ops: seq<Op>, cl: Client, external: bool)
    requires Exact(ops, cl) && Shape(cl, external) && cl.pc == LockTables
    ensures Exact(ops, LockFailed(cl))
  {
    NotYet(cl, external);
    hide IsFor, Shape;
  }

  lemma AbortKeeps(ops: seq<Op>, cl: Client, external: bool)
    requires Exact(ops, cl) && Shape(cl, external) && !cl.pc.Done?
    ensures Exact(ops, Aborted(cl))
  {
    NotYet(cl, external);
    hide IsFor, Shape;
  }

  lemma NotYet(cl: Client, external: bool)
    requires Shape(cl, external)
    ensures MayHaveCommitted(cl) ==> cl.pc.Done? || cl.w.call.CallSettle? || cl.w.call.CallFail?
    ensures cl.pc == LockTables ==> cl.w.call.CallReset?
    ensures cl.pc == MarkFail ==> cl.w.call.CallTransfer?
  {
    hide CallShape, HeldShape;
  }

  lemma {:induction false} AllExactAlways(external: bool, es: seq<Event>)
    requires ValidRun(external, es)
    ensures AllExact(StateAfter(external, es))
  {
    hide Enabled, Apply, Inv, Exact;
    if es != [] {
      var s, e := LastStep(external, es);
      AllExactAlways(external, es[..|es| - 1]);
      StepKeepsExact(s, e);
    }
  }

  /** The answers by which a call turns its caller down. */
  predicate Refuses(result: Result) {
    result.SettleOnFailed? || result.FailOnSettled? || result.NotBooked? || result.Conflicted? || result.Invalid?
  }

  /** At the end of any run: a deposit, withdrawal, opening, blocking or reset that completed has committed exactly its
      one operation, and one that failed has committed nothing. Settle and Fail commit at most one operation, the one
      asked for, and none when they refuse. */
  lemma CallsCommitExactlyWhatTheySay(external: bool, es: seq<Event>, c: nat)
    requires ValidRun(external, es) && c in StateAfter(external, es).clients
    requires StateAfter(external, es).clients[c].pc.Done?
    requires !StateAfter(external, es).clients[c].w.call.CallTransfer?
    ensures var s := StateAfter(external, es);
            var cl, ops := s.clients[c], Own(s.history, c);
            && |ops| <= 1 && (ops != [] ==> IsFor(cl.w.call, ops[0]))
            && (!cl.w.call.CallSettle? && !cl.w.call.CallFail? ==> (cl.pc.result == Completed <==> |ops| == 1))
            && (Refuses(cl.pc.result) ==> ops == [])
  {
    AllExactAlways(external, es);
    assert Exact(Own(StateAfter(external, es).history, c), StateAfter(external, es).clients[c]);
    hide StateAfter, ValidRun, Own, IsFor;
  }
}
