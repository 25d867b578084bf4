/** Whole calls in a run: a call during which nobody else commits, and whose own statements do not fail, leaves the
    tables and gives the answer that Replies tells from the tables it began with; and from any state at rest it can be
    so. */
module Answers {
  import opened Common
  import opened Ledger
  import opened Bank
  import opened History
  import opened Protocol
  import opened Invariant
  import opened Refinement
  import opened Steps
  import Solo
  import Calls
  import Effects
  import Locks
  import Database
  import Flow
  import opened Replies
  import opened Undisturbed

  // --------------------------------------------------------------------------- what is read is read from the tables

  /** Every account that the call knows after the statement it knew before, or it has just read it. */
  ghost predicate SnapMove(db: Db, cl: Client, out: Out) {
    && (forall a :: a in out.cl.w.snap ==>
          || (a in cl.w.snap && out.cl.w.snap[a] == cl.w.snap[a])
          || (a in db.accounts && out.cl.w.snap[a] == db.accounts[a]))
    && (out.log.Some? ==> out.cl.w.snap == map[])
    && (out.log.None? ==> out.db == db)
  }

  lemma AccountsSnap(db: Db, cl: Client, n: nat)
    ensures SnapMove(db, cl, DoReadAcc(db, cl, n)) && SnapMove(db, cl, DoLockAcc(db, cl, n))
  {
    hide NewBalance, ReadAt, Continues;
  }

  lemma UpdatesSnap(db: Db, cl: Client, n: nat)
    requires cl.pc == UpdateAcc(n)
    ensures SnapMove(db, cl, DoUpdateAcc(db, cl, n))
  {
    hide NewBalance, UpdateAt, VersionMatches, Continues;
  }

  lemma CommitSnap(db: Db, cl: Client, external: bool)
    requires CommittedOp(cl).None? ==> Publish(db, cl) == db
    ensures SnapMove(db, cl, DoCommit(db, cl, external))
  {
    hide Publish, CommittedOp, Continues;
  }

  predicate BeforeAccounts(pc: Pc) { pc.Validate? || pc.Insert? || pc.Find? || pc.LockRow? || pc.CountBooked? }

  lemma KeySnap(db: Db, cl: Client, newId: Id, now: nat)
    requires Typed(cl) && cl.w.call.CallTransfer?
    ensures SnapMove(db, cl, DoValidate(db, cl)) && SnapMove(db, cl, DoInsert(db, cl, newId, now))
    ensures SnapMove(db, cl, DoFind(db, cl))
  {
    hide KeyTaken, ByKey, RowIs, ParamsValid, Continues, RowOf;
  }

  lemma RowSnap(db: Db, cl: Client, clock: nat, external: bool)
    requires cl.w.tid.Some?
    ensures cl.pc.LockRow? ==> SnapMove(db, cl, DoLockRow(db, cl, clock, external))
    ensures SnapMove(db, cl, DoCountBooked(db, cl, external))
  {
    hide Select, Continues, SuccessOf;
  }

  lemma OthersSnap(db: Db, cl: Client, newId: Id, now: nat, clock: nat, external: bool)
    requires Typed(cl) && !BeforeAccounts(cl.pc)
    requires !cl.pc.ReadAcc? && !cl.pc.LockAcc? && !cl.pc.UpdateAcc? && !cl.pc.CommitTx?
    ensures SnapMove(db, cl, DoStatement(db, cl, newId, now, clock, external))
  {
    hide DoReadAcc, DoLockAcc, DoUpdateAcc, DoCommit, DoValidate, DoInsert, DoFind, DoLockRow, DoCountBooked;
    hide NewEntry, RowWriteOf, Continues;
  }

  lemma StatementSnap(db: Db, cl: Client, newId: Id, now: nat, clock: nat, external: bool)
    requires Typed(cl) && (cl.pc == CommitTx && CommittedOp(cl).None? ==> Publish(db, cl) == db)
    ensures SnapMove(db, cl, DoStatement(db, cl, newId, now, clock, external))
  {
    hide SnapMove, DoReadAcc, DoLockAcc, DoUpdateAcc, DoCommit, Publish, CommittedOp, Continues;
    match cl.pc {
      case ReadAcc(n) => AccountsSnap(db, cl, n);
      case LockAcc(n) => AccountsSnap(db, cl, n);
      case UpdateAcc(n) => UpdatesSnap(db, cl, n);
      case CommitTx => CommitSnap(db, cl, external);
      case _ =>
        if cl.pc.LockRow? || cl.pc.CountBooked? { RowSnap(db, cl, clock, external); }
        else if BeforeAccounts(cl.pc) { KeySnap(db, cl, newId, now); }
        else { OthersSnap(db, cl, newId, now, clock, external); }
    }
  }

  // ------------------------------------------------------------------------------------------------- every step

  /** The event is no failure of client c, and commits nothing but what c commits itself. */
  ghost predicate Quiet(s: State, e: Event, c: nat)
    requires Enabled(s, e)
  {
    && (OpOf(s, e).Some? ==> e.client == c)
    && (e.client == c ==> e.Acquire? || e.Do?)
  }

  /** Client c knows the accounts as they are. */
  predicate Current(s: State, c: nat) { c in s.clients && Fresh(s.db, s.clients[c].w) }

  lemma OthersKeepCurrent(s: State, e: Event, c: nat)
    requires Inv(s) && Enabled(s, e) && Quiet(s, e, c) && e.client != c && c in s.clients
    ensures Apply(s, e).db == s.db && c in Apply(s, e).clients && Apply(s, e).clients[c] == s.clients[c]
  {
    StepCommits(s, e);
    ClientsStay(s, e);
    hide Inv, Enabled, Apply, OpOf;
  }

  lemma DoKeepsCurrent(s: State, c: nat, newId: Id, now: nat)
    requires Inv(s) && Enabled(s, Do(c, newId, now)) && Current(s, c)
    ensures Current(Apply(s, Do(c, newId, now)), c)
  {
    var cl := s.clients[c];
    CommitOfNothing(s, c);
    hide DoStatement, Inv, NextLock, Publish, CommittedOp, Typed;
    StatementSnap(s.db, cl, newId, now, |s.history|, s.external);
  }

  /** A COMMIT that stands for no operation publishes nothing. */
  lemma CommitOfNothing(s: State, c: nat)
    requires Inv(s) && c in s.clients && NextLock(s.db, s.clients[c]) == None
    ensures s.clients[c].pc == CommitTx && CommittedOp(s.clients[c]).None? ==>
              Publish(s.db, s.clients[c]) == s.db
  {
    var cl := s.clients[c];
    assert ClientOk(s, cl);
    InvKnowsDb(s) by { InvRefined(s); }
    InvRows(s.db);
    hide Inv, Shape, Linked, DbInv, Publish, CommittedOp, RowsOk, NextLock, Exec, Guard, OpLocks, Continues;
    if cl.pc == CommitTx { Commits.CommitEffect(s.db, cl, s.external); }
  }

  lemma StepKeepsCurrent(s: State, e: Event, c: nat)
    requires Inv(s) && Enabled(s, e) && Quiet(s, e, c) && Current(s, c)
    ensures Current(Apply(s, e), c)
  {
    if e.client != c {
      OthersKeepCurrent(s, e, c);
      hide Inv, Enabled, Apply, Quiet;
    } else if e.Do? {
      hide Inv, Enabled, Apply, Quiet;
      DoKeepsCurrent(s, c, e.newId, e.now);
    } else {
      hide Inv, NextLock, Free;
    }
  }

  /** The reply still to come, seen from state s. */
  ghost function Coming(s: State, c: nat, id: Id, now: nat): Reply
    requires c in s.clients
  {
    Rest(s.external, s.db, s.clients[c], id, now)
  }

  /** An event leaves as much of the reply as it finds. */
  lemma StepLeavesReply(s: State, e: Event, c: nat, id: Id, now: nat) returns (id': Id, now': nat)
    requires Inv(s) && Enabled(s, e) && Quiet(s, e, c) && Current(s, c) && id !in Apply(s, e).db.issued
    ensures c in Apply(s, e).clients && Coming(s, c, id', now') == Coming(Apply(s, e), c, id, now)
    ensures id' !in s.db.issued
  {
    IssuedGrows(s, e);
    if e.client != c {
      OthersKeepCurrent(s, e, c);
      hide Inv, Enabled, Apply, Quiet, Rest;
      ExternalSame(s, e);
      id', now' := id, now;
    } else if e.Do? {
      id', now' := IdOf(s.clients[c].pc, e.newId, id), TimeOf(s.clients[c].pc, e.now, now);
      DoLeavesReply(s, c, e.newId, e.now, id, now);
      hide Inv, Apply, Quiet, Coming;
    } else {
      id', now' := id, now;
      hide Inv, NextLock, Free;
      LockLeavesReply(s.external, s.db, s.clients[c], NextLock(s.db, s.clients[c]).value, id, now);
    }
  }

  lemma ExternalSame(s: State, e: Event)
    requires Enabled(s, e)
    ensures Apply(s, e).external == s.external
  {
    hide DoStatement, NextLock, Free;
  }

  lemma IssuedGrows(s: State, e: Event)
    requires Inv(s) && Enabled(s, e)
    ensures s.db.issued <= Apply(s, e).db.issued
  {
    StepCommits(s, e);
    StepIssued(s, e.client, OpOf(s, e), Apply(s, e), 0);
    hide Inv, Enabled, Apply, OpOf, StepIs, DbInv;
  }

  lemma LockLeavesReply(external: bool, db: Db, cl: Client, l: Lock, id: Id, now: nat)
    ensures Rest(external, db, cl.(held := cl.held + {l}), id, now) == Rest(external, db, cl, id, now)
  {
    hide BookReply, SettleReply, FailReply, MutateReply, StatusReply, TransferReply, InsertReply, RepeatReply;
    hide FailedReply, InUse;
  }

  lemma DoLeavesReply(s: State, c: nat, newId: Id, at: nat, id: Id, now: nat)
    requires Inv(s) && Enabled(s, Do(c, newId, at)) && Current(s, c)
    ensures var s', pc := Apply(s, Do(c, newId, at)), s.clients[c].pc;
            c in s'.clients && Coming(s, c, IdOf(pc, newId, id), TimeOf(pc, at, now)) == Coming(s', c, id, now)
  {
    var cl := s.clients[c];
    assert ClientOk(s, cl);
    InvKnowsDb(s) by { InvRefined(s); }
    InvRows(s.db);
    hide Inv, DoStatement, Rest, NextLock, Shape, Linked, DbInv, Typed, Fresh, RowsOk, IdOf, TimeOf;
    StatementSame(s.db, cl, s.external, newId, at, |s.history|, id, now);
  }

  // ------------------------------------------------------------------------------------------------- whole calls

  /** From its event `from` on, the run has no failure of client c, and nobody else has committed since h. */
  ghost predicate LeftAlone(external: bool, es: seq<Event>, from: nat, h: nat, c: nat) {
    && (forall i :: from <= i < |es| ==> es[i] != Abort(c) && es[i] != LockFail(c))
    && var history := StateAfter(external, es).history;
       forall k :: h <= k < |history| ==> history[k].client == c
  }

  lemma AloneBefore(external: bool, es: seq<Event>, from: nat, h: nat, c: nat)
    requires es != [] && LeftAlone(external, es, from, h, c)
    requires StateAfter(external, es[..|es| - 1]).history <= StateAfter(external, es).history
    ensures LeftAlone(external, es[..|es| - 1], from, h, c)
  {
    hide StateAfter;
    var before, history := es[..|es| - 1], StateAfter(external, es).history;
    forall i | from <= i < |before| ensures before[i] != Abort(c) && before[i] != LockFail(c) {
      assert before[i] == es[i];
    }
    forall k | h <= k < |StateAfter(external, before).history|
      ensures StateAfter(external, before).history[k].client == c
    {
      assert StateAfter(external, before).history[k] == history[k];
    }
  }

  /** The last event of such a run is quiet, and the run before it is one too. */
  lemma LastIsQuiet(external: bool, es: seq<Event>, from: nat, h: nat, c: nat) returns (s: State, e: Event)
    requires ValidRun(external, es) && from < |es| && LeftAlone(external, es, from, h, c)
    requires h <= |StateAfter(external, es[..|es| - 1]).history| && c in StateAfter(external, es[..|es| - 1]).clients
    ensures s == StateAfter(external, es[..|es| - 1]) && e == es[|es| - 1] && Inv(s) && Enabled(s, e)
    ensures StateAfter(external, es) == Apply(s, e) && ValidRun(external, es[..|es| - 1])
    ensures Quiet(s, e, c) && LeftAlone(external, es[..|es| - 1], from, h, c)
  {
    hide ValidRun, StateAfter, Inv, Enabled, Apply;
    s, e := LastStep(external, es);
    OnlyOwnCommit(s, e, Apply(s, e).history, h, c);
    AloneBefore(external, es, from, h, c);
    if e.client == c && !e.Acquire? && !e.Do? { NotAgain(s, e); }
    hide OpOf;
  }

  /** What the event commits, it adds to the history under its own name. */
  lemma OnlyOwnCommit(s: State, e: Event, history: seq<Commit>, h: nat, c: nat)
    requires Inv(s) && Enabled(s, e) && history == Apply(s, e).history && h <= |s.history|
    requires forall k :: h <= k < |history| ==> history[k].client == c
    ensures s.history <= history && (OpOf(s, e).Some? ==> e.client == c)
  {
    hide Inv, Enabled, Apply, OpOf;
    StepCommits(s, e);
    if OpOf(s, e).Some? { assert history[|s.history|].client == e.client; }
  }

  lemma NotAgain(s: State, e: Event)
    requires Enabled(s, e) && e.client in s.clients && !e.Acquire? && !e.Do?
    ensures e == Abort(e.client) || e == LockFail(e.client)
  {
    hide NextLock, Free;
  }

  /** The history of a run is a beginning of that of every longer one. */
  lemma {:induction false} HistoryGrows(external: bool, es: seq<Event>, es': seq<Event>)
    requires ValidRun(external, es') && es <= es'
    ensures StateAfter(external, es).history <= StateAfter(external, es').history
    decreases |es'|
  {
    hide Enabled, Apply, Inv, OpOf;
    if |es| == |es'| {
      assert es == es';
    } else {
      var s, e := LastStep(external, es');
      HistoryGrows(external, es, es'[..|es'| - 1]);
      StepCommits(s, e);
    }
  }

  /** A call that has begun in es goes on in es' with current accounts, and its reply stays what it is. */
  lemma {:induction false} ReplyStays(external: bool, es: seq<Event>, es': seq<Event>, c: nat, id: Id, now: nat)
    returns (id': Id, now': nat)
    requires ValidRun(external, es') && es <= es' && Current(StateAfter(external, es), c)
    requires LeftAlone(external, es', |es|, |StateAfter(external, es).history|, c)
    requires id !in StateAfter(external, es').db.issued
    ensures Current(StateAfter(external, es'), c) && id' !in StateAfter(external, es).db.issued
    ensures Coming(StateAfter(external, es), c, id', now') == Coming(StateAfter(external, es'), c, id, now)
    decreases |es'|
  {
    hide Enabled, Apply, Inv, Coming, Quiet, LeftAlone;
    if |es| == |es'| {
      assert es == es';
      id', now' := id, now;
    } else {
      var before, h := es'[..|es'| - 1], |StateAfter(external, es).history|;
      PrefixIsValid(external, es', |es'| - 1);
      HistoryGrows(external, es, before);
      CallsStay(external, es, before, c);
      var s, e := LastIsQuiet(external, es', |es|, h, c);
      CurrentStays(external, es, before, c);
      StepKeepsCurrent(s, e, c);
      IssuedGrows(s, e);
      var id1, now1 := StepLeavesReply(s, e, c, id, now);
      id', now' := ReplyStays(external, es, before, c, id1, now1);
    }
  }

  lemma {:induction false} CurrentStays(external: bool, es: seq<Event>, es': seq<Event>, c: nat)
    requires ValidRun(external, es') && es <= es' && Current(StateAfter(external, es), c)
    requires LeftAlone(external, es', |es|, |StateAfter(external, es).history|, c)
    ensures Current(StateAfter(external, es'), c)
    decreases |es'|
  {
    hide Enabled, Apply, Inv, Quiet, LeftAlone, Current;
    if |es| == |es'| {
      assert es == es';
    } else {
      var before, h := es'[..|es'| - 1], |StateAfter(external, es).history|;
      PrefixIsValid(external, es', |es'| - 1);
      HistoryGrows(external, es, before);
      assert c in StateAfter(external, es).clients by { CurrentKnown(StateAfter(external, es), c); }
      CallsStay(external, es, before, c);
      var s, e := LastIsQuiet(external, es', |es|, h, c);
      CurrentStays(external, es, before, c);
      StepKeepsCurrent(s, e, c);
    }
  }

  lemma CurrentKnown(s: State, c: nat)
    requires Current(s, c)
    ensures c in s.clients
  {
  }

  lemma BeginsCurrent(s: State, c: nat, call: Call, id: Id, now: nat)
    requires Enabled(s, Begin(c, call))
    ensures var s' := Apply(s, Begin(c, call));
            && Current(s', c) && s'.db == s.db && s'.history == s.history && s'.external == s.external
            && Coming(s', c, id, now) == ReplyTo(s.external, s.db, call, id, now)
  {
    hide BookReply, SettleReply, FailReply, MutateReply, StatusReply, TransferReply, InsertReply, RepeatReply;
  }

  /** A call that begins in es and is over in es', while nobody else committed and none of its statements failed, leaves
      exactly the tables and gives exactly the answer that ReplyTo tells from the tables it began with; an identifier
      that it used was new. Other clients may read, lock, wait and fail beside it as they like. */
  lemma UndisturbedCallsReply(external: bool, es: seq<Event>, es': seq<Event>, c: nat, call: Call)
    returns (id: Id, now: nat)
    requires ValidRun(external, es') && es + [Begin(c, call)] <= es'
    requires LeftAlone(external, es', |es| + 1, |StateAfter(external, es).history|, c)
    requires c in StateAfter(external, es').clients && StateAfter(external, es').clients[c].pc.Done?
    ensures id !in StateAfter(external, es).db.issued
    ensures ReplyTo(external, StateAfter(external, es).db, call, id, now)
            == Reply(StateAfter(external, es').db, StateAfter(external, es').clients[c].pc.result)
  {
    var began := es + [Begin(c, call)];
    hide LeftAlone, Inv, Enabled, Apply, Coming, Current, ReplyTo;
    PrefixIsValid(external, es', |began|);
    assert es'[..|began|] == began && began[..|es|] == es;
    var s, e := LastStep(external, began);
    var unused := Solo.UnusedId(StateAfter(external, es').db.issued);
    BeginsCurrent(s, c, call, unused, 0);
    id, now := ReplyStays(external, began, es', c, unused, 0);
    BeginsCurrent(s, c, call, id, now);
    ReplyAtEnd(external, es', c, unused, 0);
    ExternalStays(external, es);
  }

  /** The call has left the tables and given the answer that ReplyTo tells. */
  ghost predicate Replied(external: bool, db: Db, call: Call, db': Db, result: Result) {
    exists id: Id, now: nat :: id !in db.issued && ReplyTo(external, db, call, id, now) == Reply(db', result)
  }

  lemma ReplyAtEnd(external: bool, es: seq<Event>, c: nat, id: Id, now: nat)
    requires c in StateAfter(external, es).clients && StateAfter(external, es).clients[c].pc.Done?
    ensures Coming(StateAfter(external, es), c, id, now)
            == Reply(StateAfter(external, es).db, StateAfter(external, es).clients[c].pc.result)
  {
    hide StateAfter, Rest;
    var s := StateAfter(external, es);
    RestDone(s.external, s.db, s.clients[c], id, now);
  }

  // ------------------------------------------------------------------------------------------ every call can end

  /** How far the statement is from the end of its attempt. */
  function Distance(pc: Pc): nat {
    match pc
    case Validate => 83
    case Insert => 82
    case Find => 81
    case LockRow => 18
    case CountBooked => 17
    case ReadAcc(n) => if n == 0 then 16 else 15
    case LockAcc(n) => if n == 0 then 14 else 13
    case UpdateAcc(n) => if n == 0 then 12 else 11
    case AddEntry(n) => if n == 0 then 10 else 9
    case WriteRow => 8
    case CommitTx => 7
    case MarkFail => 6
    case Fetch => 6
    case OpenAcc => 5
    case WriteAccStatus => 5
    case LockTables => 5
    case TruncateAll => 4
    case Done(_) => 0
  }

  /** And from the end of its try, all attempts counted. */
  function ToGo(cl: Client): nat {
    if cl.pc.Validate? || cl.pc.Insert? || cl.pc.Find? || cl.pc.Done? then Distance(cl.pc)
    else 20 * (if cl.attempt < 3 then 3 - cl.attempt else 0) + Distance(cl.pc)
  }

  function TriesLeft(cl: Client): nat {
    if cl.w.call.CallTransfer? && cl.outer < cl.w.call.tries then cl.w.call.tries - cl.outer else 0
  }

  predicate Nearer(cl: Client, cl': Client) {
    TriesLeft(cl') < TriesLeft(cl) || (TriesLeft(cl') == TriesLeft(cl) && ToGo(cl') < ToGo(cl))
  }

  lemma TransferNearer(cl: Client, cl': Client, external: bool)
    requires Flow.TransferFlow(cl, cl', external) && cl.w.call.CallTransfer? && !cl.pc.Done?
    requires CallShape(cl) && !cl.pc.LockAcc? && !cl.pc.Fetch? && !cl.pc.OpenAcc? && !cl.pc.WriteAccStatus?
             && !cl.pc.LockTables? && !cl.pc.TruncateAll?
    ensures Nearer(cl, cl')
  {
    hide ParamsValid, CallOk;
  }

  lemma OtherNearer(cl: Client, cl': Client, external: bool)
    requires Flow.Flows(cl, cl', external) && !cl.w.call.CallTransfer? && !cl.pc.Done? && CallShape(cl) && Fits(cl)
    ensures Nearer(cl, cl')
  {
    hide ParamsValid, CallOk, Flow.TransferFlow;
  }

  /** The statements of calls other than Transfer. */
  predicate Fits(cl: Client) {
    if cl.w.call.CallMutate? then cl.pc.ReadAcc? || cl.pc.UpdateAcc? || cl.pc.AddEntry? || cl.pc.CommitTx?
    else if cl.w.call.CallOpen? then cl.pc.OpenAcc?
    else if cl.w.call.CallSetStatus? then cl.pc.WriteAccStatus?
    else if cl.w.call.CallReset? then cl.pc.LockTables? || cl.pc.TruncateAll?
    else cl.pc.LockRow? || cl.pc.CountBooked? || cl.pc.LockAcc? || cl.pc.UpdateAcc? || cl.pc.AddEntry?
         || cl.pc.WriteRow? || cl.pc.CommitTx? || cl.pc.Fetch?
  }

  lemma TransferPcs(cl: Client, external: bool)
    requires Shape(cl, external) && cl.w.call.CallTransfer?
    ensures !cl.pc.LockAcc? && !cl.pc.Fetch? && !cl.pc.OpenAcc? && !cl.pc.WriteAccStatus? && !cl.pc.LockTables?
            && !cl.pc.TruncateAll?
  {
    hide ReadShape, UpdateShape, AddShape, WriteShape, CommitShape, CallShape, HeldShape, Updated;
  }

  lemma OtherPcs(cl: Client, external: bool)
    requires Shape(cl, external) && !cl.w.call.CallTransfer? && !cl.pc.Done?
    ensures Fits(cl)
  {
    if cl.w.call.CallMutate? { Locks.MutatePcs(cl, external); }
    else if cl.w.call.CallSettle? || cl.w.call.CallFail? { Effects.RowPcs(cl, external); }
    else { Effects.SmallPcs(cl, external); }
    hide Shape;
  }

  /** Every statement brings its call nearer to its end. */
  lemma StatementNearer(db: Db, cl: Client, newId: Id, now: nat, clock: nat, external: bool)
    requires Shape(cl, external) && Typed(cl) && !cl.pc.Done?
    ensures Nearer(cl, DoStatement(db, cl, newId, now, clock, external).cl)
  {
    var cl' := DoStatement(db, cl, newId, now, clock, external).cl;
    assert CallShape(cl);
    if cl.w.call.CallTransfer? { TransferPcs(cl, external); } else { OtherPcs(cl, external); }
    assert cl.(held := cl.held) == cl;
    assert Database.Ran(cl, cl', external);
    hide Shape, DoStatement, Typed, Nearer, Database.Ran, CallShape, Flow.TransferFlow;
    Flow.StatementFlows(cl, cl', external);
    if cl.w.call.CallTransfer? { TransferNearer(cl, cl', external); } else { OtherNearer(cl, cl', external); }
  }

  lemma ArmedNearer(db: Db, cl: Client, cl': Client)
    ensures Nearer(Solo.Armed(db, cl), cl') <==> Nearer(cl, cl')
  {
  }

  /** One statement of client c, which is alone with its locks. */
  lemma OneStatement(external: bool, es: seq<Event>, s: State, c: nat) returns (es': seq<Event>, s': State)
    requires Solo.At(external, es, s) && Unfinished(s, c) && Solo.Alone(s, c)
    ensures Solo.OnlyBy(es, es', c) && Solo.At(external, es', s') && Solo.Alone(s', c)
    ensures c in s'.clients && Nearer(s.clients[c], s'.clients[c]) && s'.clients[c].w.call == s.clients[c].w.call
  {
    Solo.AtInv(external, es, s);
    assert ClientOk(s, s.clients[c]);
    assert Shape(s.clients[c], external);
    Locks.ShapeIsTyped(s.clients[c], external);
    hide Solo.At, Inv, Shape, DoStatement, Typed, Nearer, Linked, Solo.Armed, Solo.OnlyBy;
    var id := Solo.UnusedId(s.db.issued);
    es' := Solo.Advance(external, es, s, c, id, 0);
    s' := Settle(s, c, Solo.Stepped(s, c, id, 0));
    ArmedShape(external, es, s, c);
    StatementNearer(s.db, Solo.Armed(s.db, s.clients[c]), id, 0, |s.history|, external);
    ArmedNearer(s.db, s.clients[c], s'.clients[c]);
  }

  lemma ArmedShape(external: bool, es: seq<Event>, s: State, c: nat)
    requires Solo.At(external, es, s) && c in s.clients && Solo.Alone(s, c)
    ensures var cl := Solo.Armed(s.db, s.clients[c]); Shape(cl, external) && cl.w.call == s.clients[c].w.call
  {
    hide Solo.At, Inv, Shape, Solo.Armed, Needs, NextLock;
    var before := Solo.Arm(external, es, s, c);
    var armed := Put(s, c, Solo.Armed(s.db, s.clients[c]));
    Solo.AtInv(external, before, armed);
    assert ClientOk(armed, armed.clients[c]) by { InvClient(armed, c); }
  }

  lemma InvClient(s: State, c: nat)
    requires Inv(s) && c in s.clients
    ensures ClientOk(s, s.clients[c])
  {
  }

  /** Client c, alone with its locks, comes to the end of its call. */
  lemma {:induction false} RunsToEnd(external: bool, es: seq<Event>, s: State, c: nat)
    returns (es': seq<Event>, s': State)
    requires Solo.At(external, es, s) && c in s.clients && Solo.Alone(s, c)
    ensures Solo.OnlyBy(es, es', c) && Solo.At(external, es', s') && c in s'.clients && s'.clients[c].pc.Done?
    decreases TriesLeft(s.clients[c]), ToGo(s.clients[c])
  {
    hide Solo.At, Solo.Alone, TriesLeft, ToGo;
    if s.clients[c].pc.Done? {
      es', s' := es, s;
    } else {
      var es1, s1 := OneStatement(external, es, s, c);
      es', s' := RunsToEnd(external, es1, s1, c);
      Solo.OnlyByJoins(es, es1, es', c);
    }
  }

  /** Where only client c took steps, only c committed. */
  lemma {:induction false} OnlyByCommits(external: bool, es: seq<Event>, es': seq<Event>, c: nat)
    requires ValidRun(external, es') && Solo.OnlyBy(es, es', c)
    ensures var h, h' := StateAfter(external, es).history, StateAfter(external, es').history;
            h <= h' && forall k :: |h| <= k < |h'| ==> h'[k].client == c
    decreases |es'|
  {
    hide Enabled, Apply, Inv, OpOf;
    if |es| == |es'| {
      assert es == es';
    } else {
      var s, e := LastStep(external, es');
      var before := es'[..|es'| - 1];
      assert forall i :: |es| <= i < |before| ==> before[i] == es'[i];
      OnlyByCommits(external, es, before, c);
      StepCommits(s, e);
    }
  }

  /** From any reachable state in which nobody holds a lock, every call can be made, and comes to its end with the reply
      that ReplyTo tells, by statements of its own alone. */
  lemma EveryCallIsAnswered(external: bool, es: seq<Event>, c: nat, call: Call)
    returns (es': seq<Event>, id: Id, now: nat)
    requires ValidRun(external, es) && Solo.Idle(StateAfter(external, es))
    requires c !in StateAfter(external, es).clients && CallOk(call)
    ensures ValidRun(external, es') && Solo.OnlyBy(es + [Begin(c, call)], es', c)
    ensures c in StateAfter(external, es').clients && StateAfter(external, es').clients[c].pc.Done?
    ensures StateAfter(external, es').clients[c].w.call == call && id !in StateAfter(external, es).db.issued
    ensures LeftAlone(external, es', |es| + 1, |StateAfter(external, es).history|, c)
    ensures ReplyTo(external, StateAfter(external, es).db, call, id, now)
            == Reply(StateAfter(external, es').db, StateAfter(external, es').clients[c].pc.result)
  {
    var s, began := StateAfter(external, es), es + [Begin(c, call)];
    assert Solo.At(external, es, s);
    Solo.Start(external, es, s, c, call);
    BegunAlone(s, c, call);
    var s1 := Put(s, c, StartOf(call, |s.history|));
    assert StateAfter(external, began) == s1;
    hide StateAfter, ValidRun, CallOk, StartOf, ReplyTo, Inv;
    assert forall f, u {:trigger Solo.At(external, f, u)} ::
        Solo.At(external, f, u) ==> ValidRun(external, f) && StateAfter(external, f) == u;
    hide Solo.At;
    var s': State;
    es', s' := RunsToEnd(external, began, s1, c);
    OnlyByCommits(external, began, es', c);
    CallsStay(external, began, es', c);
    AloneSince(external, began, es', |s.history|, c);
    id, now := UndisturbedCallsReply(external, es, es', c, call);
  }

  lemma BegunAlone(s: State, c: nat, call: Call)
    requires Solo.Idle(s) && c !in s.clients
    ensures var s' := Put(s, c, StartOf(call, |s.history|));
            Solo.Alone(s', c) && c in s'.clients && s'.clients[c].w.call == call && s'.history == s.history
  {
  }

  lemma AloneSince(external: bool, began: seq<Event>, es': seq<Event>, h: nat, c: nat)
    requires Solo.OnlyBy(began, es', c)
    requires var h' := StateAfter(external, es').history; forall k :: h <= k < |h'| ==> h'[k].client == c
    ensures LeftAlone(external, es', |began|, h, c)
  {
    forall i | |began| <= i < |es'| ensures es'[i] != Abort(c) && es'[i] != LockFail(c) {
      assert es'[i].Acquire? || es'[i].Do?;
    }
  }

  // -------------------------------------------------------------------------------- the end of an unbooked transfer

  /** The operation that the one commit of a call was. */
  lemma OneCommit(external: bool, es: seq<Event>, es': seq<Event>, c: nat) returns (op: Option<Op>)
    requires ValidRun(external, es') && es <= es' && c !in StateAfter(external, es).clients
    requires c in StateAfter(external, es').clients
    requires StateAfter(external, es').clients[c].pc.Done? && !StateAfter(external, es').clients[c].w.call.CallTransfer?
    requires OwnSince(StateAfter(external, es).history, StateAfter(external, es').history, c)
    ensures op.Some? ==> Effects.IsFor(StateAfter(external, es').clients[c].w.call, op.value)
    ensures StepIs(StateAfter(external, es), c, op, StateAfter(external, es'))
  {
    var s, s' := StateAfter(external, es), StateAfter(external, es');
    PrefixIsValid(external, es', |es|);
    assert es'[..|es|] == es;
    Effects.AllExactAlways(external, es);
    Effects.CallsCommitExactlyWhatTheySay(external, es', c);
    assert forall i :: 0 <= i < |s.history| ==> s.history[i].client != c;
    hide StateAfter, ValidRun, Inv, Guard, Exec, RowsOk, Effects.IsFor, Effects.AllExact, OwnSince;
    EveryInterleavingRefinesTheAtomicBank(external, es);
    EveryInterleavingRefinesTheAtomicBank(external, es');
    op := CommitSince(s, s', c);
  }

  /** All commits after h are those of client c. */
  predicate OwnSince(h: seq<Commit>, h': seq<Commit>, c: nat) {
    h <= h' && forall k :: |h| <= k < |h'| ==> h'[k].client == c
  }

  lemma CommitSince(s: State, s': State, c: nat) returns (op: Option<Op>)
    requires Legal(s'.history) && s.db == Replay(s.history) && s'.db == Replay(s'.history)
    requires OwnSince(s.history, s'.history, c) && |Effects.Own(s'.history, c)| <= 1
    requires forall i :: 0 <= i < |s.history| ==> s.history[i].client != c
    ensures StepIs(s, c, op, s')
    ensures op.Some? ==> Effects.Own(s'.history, c) == [op.value]
  {
    hide Guard, Exec, RowsOk, Effects.Own, Legal, Replay;
    OwnIsRest(s.history, s'.history, c);
    if s'.history == s.history {
      op := None;
    } else {
      op := Some(s'.history[|s.history|].op);
      assert s'.history == s.history + [Commit(c, op.value)];
      LegalLast(s.history, Commit(c, op.value));
    }
  }

  lemma LegalLast(h: seq<Commit>, k: Commit)
    requires Legal(h + [k])
    ensures RowsOk(Replay(h)) && Guard(Replay(h), k.op) && Replay(h + [k]) == Exec(Replay(h), k.op)
  {
    assert Front(h + [k]) == h;
  }

  /** What a client commits after h, when all commits after h are its own and none before. */
  lemma {:induction false} OwnIsRest(h: seq<Commit>, h': seq<Commit>, c: nat)
    requires OwnSince(h, h', c) && forall i :: 0 <= i < |h| ==> h[i].client != c
    ensures |Effects.Own(h', c)| == |h'| - |h|
    ensures |h'| == |h| + 1 ==> Effects.Own(h', c) == [h'[|h|].op]
    decreases |h'|
  {
    if |h| == |h'| {
      assert h == h';
      Effects.NoneOwned(h, c);
    } else {
      OwnIsRest(h, Front(h'), c);
      if |h'| == |h| + 1 { Effects.NoneOwned(h, c); assert Front(h') == h; }
    }
  }

  /** Fail on a PENDING transfer without entries, from any reachable state in which nobody holds a lock: it answers that
      it is done, it has committed the end of that transfer and nothing else, and the row is FAILED, still without an
      entry. */
  lemma FailEndsUnbooked(external: bool, es: seq<Event>, c: nat, t: Id) returns (es': seq<Event>)
    requires ValidRun(external, es) && Solo.Idle(StateAfter(external, es)) && c !in StateAfter(external, es).clients
    requires var db := StateAfter(external, es).db;
             t in db.transfers && db.transfers[t].status == Pending && !HasEntries(db, t)
    ensures ValidRun(external, es') && Solo.OnlyBy(es + [Begin(c, CallFail(t))], es', c)
    ensures var s, s' := StateAfter(external, es), StateAfter(external, es');
            && c in s'.clients && s'.clients[c].pc == Done(Completed)
            && s'.history == s.history + [Commit(c, Void(t))]
            && t in s'.db.transfers && s'.db.transfers[t] == s.db.transfers[t].(status := Failed)
            && !HasEntries(s'.db, t) && s'.db.accounts == s.db.accounts && s'.db.entries == s.db.entries
  {
    var id: Id, now: nat;
    var s := StateAfter(external, es);
    es', id, now := EveryCallIsAnswered(external, es, c, CallFail(t));
    var s' := StateAfter(external, es');
    assert ReplyTo(external, s.db, CallFail(t), id, now) == FailReply(s.db, t);
    hide ReplyTo, StateAfter, ValidRun, ReverseReply, Solo.Idle;
    SinceBegin(external, es, es', c, CallFail(t));
    var op := OneCommit(external, es, es', c);
    assert op.Some? && (op.value.Void? || op.value.Reverse?) && op.value.tid == t;
    hide LeftAlone;
    BookedHasEntries(s.db, t);
  }

  lemma SinceBegin(external: bool, es: seq<Event>, es': seq<Event>, c: nat, call: Call)
    requires ValidRun(external, es') && Solo.OnlyBy(es + [Begin(c, call)], es', c)
    requires LeftAlone(external, es', |es| + 1, |StateAfter(external, es).history|, c)
    ensures es <= es' && OwnSince(StateAfter(external, es).history, StateAfter(external, es').history, c)
  {
    HistoryGrows(external, es, es') by { assert es <= es + [Begin(c, call)] <= es'; }
    hide StateAfter, ValidRun;
  }
}
