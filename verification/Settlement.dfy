/** The life of a transfer over whole runs: what settles it, what voids it, and when FAILED can be trusted. */
module Settlement {
  import opened Common
  import opened Ledger
  import opened Bank
  import opened BankLaws
  import opened History
  import opened Protocol
  import opened Invariant
  import opened Refinement
  import opened Steps

  // -------------------------------------------------------------------------------------- FAILED moves no money

  /** No FAILED transfer is left booked and not reversed. */
  ghost predicate FailedIsVoid(db: Db) {
    forall t :: t in db.transfers && db.transfers[t].status == Failed ==> |EntriesFor(db, t)| != 2
  }

  lemma SelectNet2(e: Entry, f: Entry, a: Id)
    ensures Net(Select([e, f], OfAccount(a))) ==
            (if e.account == a then Signed(e) else 0) + (if f.account == a then Signed(f) else 0)
  {
    hide Signed;
    var none: seq<Entry> := [];
    SelectNetAppend(none, e, a);
    SelectNetAppend([e], f, a);
    assert none + [e] == [e] && [e] + [f] == [e, f];
    assert Net(Select(none, OfAccount(a))) == 0;
  }

  lemma SelectNet4(es: seq<Entry>, a: Id)
    requires |es| == 4
    ensures Net(Select(es, OfAccount(a))) ==
            (if es[0].account == a then Signed(es[0]) else 0) + (if es[1].account == a then Signed(es[1]) else 0)
            + (if es[2].account == a then Signed(es[2]) else 0) + (if es[3].account == a then Signed(es[3]) else 0)
  {
    hide Signed, Net, Select;
    SelectNet2(es[0], es[1], a);
    SelectNetAppend([es[0], es[1]], es[2], a);
    assert [es[0], es[1]] + [es[2]] == [es[0], es[1], es[2]];
    SelectNetAppend([es[0], es[1], es[2]], es[3], a);
    assert [es[0], es[1], es[2]] + [es[3]] == es;
  }

  lemma SelectNetAppend(es: seq<Entry>, e: Entry, a: Id)
    ensures Net(Select(es + [e], OfAccount(a))) ==
            Net(Select(es, OfAccount(a))) + if e.account == a then Signed(e) else 0
  {
    SelectAppend(es, e, OfAccount(a));
    if e.account == a { NetAppend(Select(es, OfAccount(a)), e); }
    else { assert Select(es, OfAccount(a)) + [] == Select(es, OfAccount(a)); }
  }

  /** A FAILED transfer that is not left booked moved nothing: over its own entries, every account nets to zero. */
  lemma FailedNetsToZero(db: Db, t: Id, a: Id)
    requires BookingsOk(db) && t in db.transfers && db.transfers[t].status == Failed && |EntriesFor(db, t)| != 2
    ensures |EntriesFor(db, t)| == 0 || |EntriesFor(db, t)| == 4
    ensures Net(Select(EntriesFor(db, t), OfAccount(a))) == 0
  {
    assert BookingOk(db, t);
    var es := EntriesFor(db, t);
    if |es| == 4 { SelectNet4(es, a); }
  }

  lemma FailedStep(db: Db, op: Op, t: Id)
    requires DbInv(db) && Guard(db, op) && t in Exec(db, op).transfers && Exec(db, op).transfers[t].status == Failed
    requires t in db.transfers && db.transfers[t].status == Failed ==> |EntriesFor(db, t)| != 2
    ensures |EntriesFor(Exec(db, op), t)| != 2 || (op == MarkFailed(t) && |EntriesFor(db, t)| == 2)
  {
    if !Concerns(op, t) {
      ExecOtherTransfer(db, op, t);
    } else {
      if op.Create? { UnknownHasNoEntries(db, OfTransfer(t)); }
      if op.Book? { ExecBookEffect(db, op); }
      if op.Reverse? { ExecReverseEffect(db, op); }
    }
  }

  /** The one operation that breaks it is markFailed on a transfer that is booked and not yet reversed: with a guard
      on the entries it never would. */
  lemma OnlyMarkFailedLeavesMoneyMoved(db: Db, op: Op)
    requires DbInv(db) && Guard(db, op) && FailedIsVoid(db)
    ensures FailedIsVoid(Exec(db, op)) <==> !(op.MarkFailed? && |EntriesFor(db, op.tid)| == 2)
  {
    var db' := Exec(db, op);
    if op.MarkFailed? && |EntriesFor(db, op.tid)| == 2 {
      assert db'.transfers[op.tid].status == Failed && EntriesFor(db', op.tid) == EntriesFor(db, op.tid);
    } else {
      hide DbInv, Guard, Exec, Select;
      forall t | t in db'.transfers && db'.transfers[t].status == Failed ensures |EntriesFor(db', t)| != 2 {
        FailedStep(db, op, t);
      }
    }
  }

  /** markFailed hit the transfer while it was booked and not reversed, at some point of the history. */
  ghost predicate Stranded(h: seq<Commit>, t: Id) {
    h != [] && (Stranded(Front(h), t)
                || (Last(h).op == MarkFailed(t) && |EntriesFor(Replay(Front(h)), t)| == 2))
  }

  lemma StrandedStep(db: Db, op: Op, t: Id)
    requires DbInv(db) && Guard(db, op) && t in db.transfers && t in Exec(db, op).transfers
    ensures Exec(db, op).transfers[t].status == Failed && |EntriesFor(Exec(db, op), t)| == 2 <==>
            (db.transfers[t].status == Failed && |EntriesFor(db, t)| == 2)
            || (op == MarkFailed(t) && |EntriesFor(db, t)| == 2)
  {
    if !Concerns(op, t) { ExecOtherTransfer(db, op, t); }
    if op.Book? && op.tid == t { ExecBookEffect(db, op); }
    if op.Reverse? && op.tid == t { ExecReverseEffect(db, op); }
  }

  /** Over any history, a live transfer is FAILED with its money moved if and only if markFailed hit it while it was
      booked. */
  lemma {:induction false} StrandedExactlyByMarkFailed(h: seq<Commit>, t: Id)
    requires Legal(h)
    ensures t !in Replay(h).issued ==> !Stranded(h, t)
    ensures t in Replay(h).transfers ==>
              (Replay(h).transfers[t].status == Failed && |EntriesFor(Replay(h), t)| == 2 <==> Stranded(h, t))
  {
    if h != [] {
      var db, op := Replay(Front(h)), Last(h).op;
      StrandedExactlyByMarkFailed(Front(h), t);
      LegalHistoryKeepsDbInv(Front(h));
      ExecIssued(db, op);
      if t in Replay(h).transfers {
        if t in db.transfers { StrandedStep(db, op, t); } else { NewIsNotStranded(db, op, t); }
      }
    }
  }

  lemma NewIsNotStranded(db: Db, op: Op, t: Id)
    requires DbInv(db) && Guard(db, op) && t !in db.transfers && t in Exec(db, op).transfers
    ensures t !in db.issued && Exec(db, op).transfers[t].status != Failed && op != MarkFailed(t)
  {
    if !Concerns(op, t) { ExecOtherTransfer(db, op, t); }
  }

  // ---------------------------------------------------------------------- one Transfer in flight for every key

  predicate InFlight(s: State, c: nat) { c in s.clients && s.clients[c].w.call.CallTransfer? && !s.clients[c].pc.Done? }

  /** No two unfinished Transfer calls carry the same key. Settle, Fail and everything else run freely. */
  ghost predicate OnePerKey(s: State) {
    forall c, d :: InFlight(s, c) && InFlight(s, d) && s.clients[c].w.call.key == s.clients[d].w.call.key ==> c == d
  }

  ghost predicate AlwaysOnePerKey(external: bool, es: seq<Event>) {
    forall n :: 0 <= n <= |es| ==> OnePerKey(Moment(external, es, n))
  }

  /** markFailed on t would not strand a booking. */
  predicate SafeToFail(db: Db, t: Id) {
    t in db.transfers ==> db.transfers[t].status == Failed || !Booked(db, t)
  }

  predicate ClientSafe(db: Db, cl: Client) { cl.pc.MarkFail? && cl.w.tid.Some? ==> SafeToFail(db, cl.w.tid.value) }

  ghost predicate MarkFailSafe(s: State) {
    FailedIsVoid(s.db) && forall c :: c in s.clients ==> ClientSafe(s.db, s.clients[c])
  }

  lemma SafeStaysSafe(db: Db, op: Op, t: Id)
    requires DbInv(db) && Guard(db, op) && SafeToFail(db, t) && t in db.issued && !(op.Book? && op.tid == t)
    ensures SafeToFail(Exec(db, op), t)
  {
    if !Concerns(op, t) { ExecOtherTransfer(db, op, t); }
  }

  /** Which statements commit a booking or an unconditional failure. */
  lemma LogOrigin(db: Db, cl: Client, newId: Id, now: nat, clock: nat, external: bool)
    requires Typed(cl)
    ensures var log := DoStatement(db, cl, newId, now, clock, external).log;
            && (log.Some? && log.value.MarkFailed? ==> cl.pc.MarkFail? && cl.w.tid == Some(log.value.tid))
            && (log.Some? && log.value.Book? ==> cl.w.call.CallTransfer? && cl.w.tid == Some(log.value.tid))
  {
    hide KeyTaken, VersionMatches, NewBalance, Select, RowIs, Publish, NewEntry, ParamsValid, Continues;
    if cl.pc.CommitTx? || cl.pc.MarkFail? {
      hide DoInsert, DoFind, DoLockRow, DoReadAcc, DoLockAcc, DoUpdateAcc, DoConflict, DoCountBooked, DoAddEntry;
    } else {
      hide DoCommit, DoMarkFail, CommittedOp;
    }
  }

  /** A statement leads to MarkFail only past a FAILED row or an unbooked one. */
  lemma EntersMarkFailSafely(db: Db, cl: Client, newId: Id, now: nat, clock: nat, external: bool)
    requires Typed(cl) && Shape(cl, external) && Linked(db, cl.w, cl.held) && !cl.pc.Done? && !cl.pc.MarkFail?
    requires DoStatement(db, cl, newId, now, clock, external).cl.pc.MarkFail?
    ensures cl.w.tid.Some? && DoStatement(db, cl, newId, now, clock, external).cl.w.tid == cl.w.tid
    ensures DoStatement(db, cl, newId, now, clock, external).db == db && SafeToFail(db, cl.w.tid.value)
  {
    assert cl.pc.LockRow? || cl.pc.ReadAcc? by { MarkFailEntrance(db, cl, newId, now, clock, external); }
    if cl.pc.ReadAcc? {
      ReadAccUnbooked(db, cl, external);
      hide Select, NewBalance, ReadAt, Shape, Linked, Continues, SnapBalance;
    } else {
      hide Select, NewBalance, ReadAt, Shape, Linked, Continues;
    }
  }

  lemma MarkFailEntrance(db: Db, cl: Client, newId: Id, now: nat, clock: nat, external: bool)
    requires Typed(cl) && !cl.pc.MarkFail? && DoStatement(db, cl, newId, now, clock, external).cl.pc.MarkFail?
    ensures cl.pc.LockRow? || cl.pc.ReadAcc?
  {
    hide KeyTaken, VersionMatches, NewBalance, Select, RowIs;
    hide Publish, NewEntry, ParamsValid, Continues, DoLockRow, DoReadAcc;
  }

  lemma ReadAccUnbooked(db: Db, cl: Client, external: bool)
    requires Shape(cl, external) && Linked(db, cl.w, cl.held) && cl.pc.ReadAcc?
    ensures cl.w.call.CallMutate? || (cl.w.tid.Some? && !Booked(db, cl.w.tid.value) && cl.w.call.CallTransfer?)
  {
    hide Select, CallShape, HeldShape, Reads, SnapOk, VersionMatches;
  }

  /** Two clients with the same transfer at hand have the same key, and are one client. */
  lemma SameTransferSameKey(s: State, c: nat, d: nat)
    requires Inv(s) && OnePerKey(s) && InFlight(s, c) && InFlight(s, d)
    requires s.clients[c].w.tid.Some? && s.clients[c].w.tid == s.clients[d].w.tid
    requires s.clients[c].w.tid.value in s.db.transfers
    ensures c == d
  {
    assert ClientOk(s, s.clients[c]) && ClientOk(s, s.clients[d]);
    LinkedRemembers(s.db, s.clients[c].w, s.clients[c].held);
    LinkedRemembers(s.db, s.clients[d].w, s.clients[d].held);
    hide Inv, Shape, Linked;
  }

  lemma MarkFailHasTransfer(s: State, d: nat)
    requires Inv(s) && d in s.clients && s.clients[d].pc.MarkFail?
    ensures InFlight(s, d) && s.clients[d].w.tid.Some? && s.clients[d].w.tid.value in s.db.issued
  {
    assert ClientOk(s, s.clients[d]);
    LinkedRemembers(s.db, s.clients[d].w, s.clients[d].held);
    hide Linked, CallShape, HeldShape, Refines;
  }

  /** The statement of cl commits out.log, and bookings and failures come from where they should. */
  ghost predicate Commits(db: Db, cl: Client, out: Out)
    requires RowsOk(db)
  {
    match out.log
    case None => out.db == db
    case Some(op) =>
      && Guard(db, op) && out.db == Exec(db, op)
      && (op.Book? ==> cl.w.call.CallTransfer? && cl.w.tid == Some(op.tid))
      && (op.MarkFailed? ==> cl.pc.MarkFail? && cl.w.tid == Some(op.tid))
  }

  lemma OutCommits(s: State, c: nat, newId: Id, now: nat)
    requires Inv(s) && Enabled(s, Do(c, newId, now))
    ensures DbInv(s.db)
    ensures Commits(s.db, s.clients[c], DoStatement(s.db, s.clients[c], newId, now, |s.history|, s.external))
  {
    StepCommits(s, Do(c, newId, now));
    LogOrigin(s.db, s.clients[c], newId, now, |s.history|, s.external);
    hide Inv, DbInv, DoStatement, Exec, Guard, NextLock, Typed;
  }

  lemma OthersStaySafe(s: State, c: nat, out: Out, d: nat)
    requires Inv(s) && DbInv(s.db) && OnePerKey(s) && Unfinished(s, c) && d in s.clients && d != c
    requires ClientSafe(s.db, s.clients[d])
    requires Commits(s.db, s.clients[c], out)
    ensures ClientSafe(out.db, s.clients[d])
  {
    hide Exec, DbInv, Inv, OnePerKey, SafeToFail;
    if s.clients[d].pc.MarkFail? && out.log.Some? {
      MarkFailHasTransfer(s, d);
      var t, op := s.clients[d].w.tid.value, out.log.value;
      if op.Book? && op.tid == t { SameTransferSameKey(s, c, d); }
      SafeStaysSafe(s.db, op, t);
    }
  }

  lemma DoStaysVoid(s: State, c: nat, cl: Client, out: Out)
    requires DbInv(s.db) && FailedIsVoid(s.db) && ClientSafe(s.db, cl)
    requires Commits(s.db, cl, out)
    ensures FailedIsVoid(out.db)
  {
    if out.log.Some? {
      OnlyMarkFailedLeavesMoneyMoved(s.db, out.log.value);
      hide DbInv, Exec;
    }
  }

  lemma PutStaysSafe(s: State, c: nat, out: Out)
    requires c in s.clients && FailedIsVoid(out.db) && ClientSafe(out.db, out.cl)
    requires forall d :: d in s.clients && d != c ==> ClientSafe(out.db, s.clients[d])
    ensures MarkFailSafe(Settle(s, c, out))
  {
    hide FailedIsVoid, ClientSafe;
  }

  lemma DoStaysSafe(s: State, c: nat, newId: Id, now: nat)
    requires Inv(s) && MarkFailSafe(s) && OnePerKey(s) && Enabled(s, Do(c, newId, now))
    ensures MarkFailSafe(Settle(s, c, DoStatement(s.db, s.clients[c], newId, now, |s.history|, s.external)))
  {
    var cl := s.clients[c];
    var out := DoStatement(s.db, cl, newId, now, |s.history|, s.external);
    OutCommits(s, c, newId, now);
    assert ClientOk(s, cl) && ClientSafe(s.db, cl) && FailedIsVoid(s.db);
    hide Inv, DbInv, DoStatement, NextLock, FailedIsVoid, OnePerKey, Commits, ClientOk, ClientSafe;
    DoStaysVoid(s, c, cl, out);
    forall d | d in s.clients && d != c ensures ClientSafe(out.db, s.clients[d]) {
      OthersStaySafe(s, c, out, d);
    }
    assert ClientSafe(out.db, out.cl) by { OwnStaysSafe(s, cl, newId, now, out); }
    PutStaysSafe(s, c, out);
  }

  lemma OwnStaysSafe(s: State, cl: Client, newId: Id, now: nat, out: Out)
    requires ClientOk(s, cl) && Typed(cl) && !cl.pc.Done?
    requires out == DoStatement(s.db, cl, newId, now, |s.history|, s.external)
    ensures ClientSafe(out.db, out.cl)
  {
    if cl.pc.MarkFail? {
      hide Shape, Linked, Continues;
    } else if out.cl.pc.MarkFail? {
      EntersMarkFailSafely(s.db, cl, newId, now, |s.history|, s.external);
      hide DoStatement, Shape, Linked, SafeToFail;
    }
  }

  lemma StepStaysSafe(s: State, e: Event)
    requires Inv(s) && MarkFailSafe(s) && OnePerKey(s) && Enabled(s, e)
    ensures MarkFailSafe(Apply(s, e))
  {
    if e.Do? { DoStaysSafe(s, e.client, e.newId, e.now); }
    else { QuietStaysSafe(s, e); }
  }

  lemma QuietStaysSafe(s: State, e: Event)
    requires MarkFailSafe(s) && Enabled(s, e) && !e.Do?
    ensures MarkFailSafe(Apply(s, e))
  {
    hide NextLock, Free, SafeToFail, FailedIsVoid;
    var s' := Apply(s, e);
    forall c | c in s'.clients ensures ClientSafe(s'.db, s'.clients[c]) {
      if c in s.clients { assert ClientSafe(s.db, s.clients[c]); }
    }
  }

  /** With at most one Transfer in flight for every key, and any number of Settle, Fail and other calls beside it, no
      FAILED transfer is ever left booked: none has entries but the four that net to zero (FailedNetsToZero). */
  lemma {:induction false} FailedNeverStrandsMoney(external: bool, es: seq<Event>)
    requires ValidRun(external, es) && AlwaysOnePerKey(external, es)
    ensures MarkFailSafe(StateAfter(external, es))
  {
    hide Enabled, Apply, Inv, MarkFailSafe, OnePerKey;
    if es == [] {
      assert MarkFailSafe(Init(external)) by { InitIsSafe(external); }
    } else {
      var s, e := LastStep(external, es);
      SoleBefore(external, es);
      FailedNeverStrandsMoney(external, es[..|es| - 1]);
      StepStaysSafe(s, e);
    }
  }

  lemma InitIsSafe(external: bool)
    ensures MarkFailSafe(Init(external))
  {
  }

  lemma SoleBefore(external: bool, es: seq<Event>)
    requires AlwaysOnePerKey(external, es) && es != []
    ensures AlwaysOnePerKey(external, es[..|es| - 1]) && OnePerKey(StateAfter(external, es[..|es| - 1]))
  {
    hide OnePerKey, StateAfter;
    var before := es[..|es| - 1];
    forall n | 0 <= n <= |before| ensures OnePerKey(Moment(external, before, n)) {
      assert before[..n] == es[..n] && OnePerKey(Moment(external, es, n));
    }
    assert before[..|before|] == before && OnePerKey(Moment(external, before, |before|));
  }

  // ------------------------------------------------------------------------------------ terminal states are final

  /** What a transfer that has left PENDING keeps. */
  predicate Final(before: Transfer, after: Transfer) {
    after.status == before.status && after.settledAt == before.settledAt && after.ref == before.ref
  }

  lemma FinalStep(s: State, e: Event, t: Id)
    requires Inv(s) && MarkFailSafe(s) && Enabled(s, e)
    requires t in s.db.transfers && t in Apply(s, e).db.transfers && s.db.transfers[t].status != Pending
    ensures Final(s.db.transfers[t], Apply(s, e).db.transfers[t])
  {
    hide Inv, OpOf, MarkFailSafe, Enabled, Apply, DbInv, Exec, Guard, RowsOk;
    StepCommits(s, e);
    var op := OpOf(s, e);
    if op == Some(MarkFailed(t)) { FailsOnlyFailed(s, e, t); }
    if op.Some? { FinalOp(s.db, op.value, t); }
  }

  lemma FailsOnlyFailed(s: State, e: Event, t: Id)
    requires Inv(s) && DbInv(s.db) && MarkFailSafe(s) && Enabled(s, e) && OpOf(s, e) == Some(MarkFailed(t))
    requires t in s.db.transfers && s.db.transfers[t].status != Pending
    ensures s.db.transfers[t].status == Failed
  {
    hide DoStatement, NextLock, Inv, Typed, Free, Select;
    LogOrigin(s.db, s.clients[e.client], e.newId, e.now, |s.history|, s.external);
    assert BookingOk(s.db, t) && ClientSafe(s.db, s.clients[e.client]);
    hide DbInv, MarkFailSafe;
  }

  lemma FinalOp(db: Db, op: Op, t: Id)
    requires DbInv(db) && Guard(db, op) && t in db.transfers && t in Exec(db, op).transfers
    requires db.transfers[t].status != Pending && (op == MarkFailed(t) ==> db.transfers[t].status == Failed)
    ensures Final(db.transfers[t], Exec(db, op).transfers[t])
  {
    if !Concerns(op, t) { ExecOtherTransfer(db, op, t); }
  }

  /** With at most one Transfer in flight for every key, a transfer that is SETTLED or FAILED stays so, with its time
      and reference of settlement, for as long as it exists: status only moves PENDING to SETTLED or to FAILED. */
  lemma {:induction false} TerminalStatesAreFinal(external: bool, es: seq<Event>, n: nat, t: Id)
    requires ValidRun(external, es) && AlwaysOnePerKey(external, es) && n <= |es|
    requires t in Moment(external, es, n).db.transfers && Moment(external, es, n).db.transfers[t].status != Pending
    requires t in StateAfter(external, es).db.transfers
    ensures Final(Moment(external, es, n).db.transfers[t], StateAfter(external, es).db.transfers[t])
    decreases |es|
  {
    hide Enabled, Apply, Inv, MarkFailSafe, AlwaysOnePerKey;
    if n == |es| {
      assert es[..n] == es;
    } else {
      var s, e := LastStep(external, es);
      assert es[..|es| - 1][..n] == es[..n];
      SoleBefore(external, es);
      FailedNeverStrandsMoney(external, es[..|es| - 1]);
      NoTransferComesBack(external, es, n, t);
      TerminalStatesAreFinal(external, es[..|es| - 1], n, t);
      FinalStep(s, e, t);
    }
  }

  // --------------------------------------------------------------------------------- settlement is written once

  lemma SettlementStep(s: State, e: Event, t: Id)
    requires Inv(s) && Enabled(s, e)
    requires t in s.db.transfers && t in Apply(s, e).db.transfers && s.db.transfers[t].settledAt.Some?
    ensures Apply(s, e).db.transfers[t].settledAt == s.db.transfers[t].settledAt
    ensures Apply(s, e).db.transfers[t].ref == s.db.transfers[t].ref
  {
    StepCommits(s, e);
    if OpOf(s, e).Some? { StatusMoves(s.db, OpOf(s, e).value, t); }
    hide Inv, OpOf, Enabled, Apply, Exec, Guard;
  }

  /** In any run whatsoever, settled_at and settlement_ref are written at most once. */
  lemma {:induction false} SettlementIsWrittenOnce(external: bool, es: seq<Event>, n: nat, t: Id)
    requires ValidRun(external, es) && n <= |es|
    requires t in Moment(external, es, n).db.transfers && Moment(external, es, n).db.transfers[t].settledAt.Some?
    requires t in StateAfter(external, es).db.transfers
    ensures var before, after := Moment(external, es, n).db.transfers[t], StateAfter(external, es).db.transfers[t];
            after.settledAt == before.settledAt && after.ref == before.ref
    decreases |es|
  {
    hide Enabled, Apply, Inv;
    if n == |es| {
      assert es[..n] == es;
    } else {
      var s, e := LastStep(external, es);
      assert es[..|es| - 1][..n] == es[..n];
      NoTransferComesBack(external, es, n, t);
      SettlementIsWrittenOnce(external, es[..|es| - 1], n, t);
      SettlementStep(s, e, t);
    }
  }

  /** In any run, a transfer whose status has left PENDING never gets another entry. */
  lemma {:induction false} NoLateEntries(external: bool, es: seq<Event>, n: nat, t: Id)
    requires ValidRun(external, es) && n <= |es|
    requires t in Moment(external, es, n).db.transfers && Moment(external, es, n).db.transfers[t].status != Pending
    requires t in StateAfter(external, es).db.transfers
    ensures StateAfter(external, es).db.transfers[t].status != Pending
    ensures EntriesFor(StateAfter(external, es).db, t) == EntriesFor(Moment(external, es, n).db, t)
    decreases |es|
  {
    hide Enabled, Apply, Inv;
    if n == |es| {
      assert es[..n] == es;
    } else {
      var s, e := LastStep(external, es);
      assert es[..|es| - 1][..n] == es[..n];
      NoTransferComesBack(external, es, n, t);
      NoLateEntries(external, es[..|es| - 1], n, t);
      LateStep(s, e, t);
    }
  }

  lemma LateStep(s: State, e: Event, t: Id)
    requires Inv(s) && Enabled(s, e)
    requires t in s.db.transfers && t in Apply(s, e).db.transfers && s.db.transfers[t].status != Pending
    ensures Apply(s, e).db.transfers[t].status != Pending
    ensures EntriesFor(Apply(s, e).db, t) == EntriesFor(s.db, t)
  {
    StepCommits(s, e);
    if OpOf(s, e).Some? {
      NoEntryAfterPending(s.db, OpOf(s, e).value, t);
      StaysOut(s.db, OpOf(s, e).value, t);
    }
    hide Inv, OpOf, Enabled, Apply, Exec, Guard;
  }

  lemma StaysOut(db: Db, op: Op, t: Id)
    requires DbInv(db) && Guard(db, op) && t in db.transfers
    requires t in Exec(db, op).transfers && db.transfers[t].status != Pending
    ensures Exec(db, op).transfers[t].status != Pending
  {
    if !Concerns(op, t) { ExecOtherTransfer(db, op, t); }
  }
}
