/** Every interleaving refines the atomic bank. */
module Refinement {
  import opened Common
  import opened Ledger
  import opened Bank
  import opened History
  import opened Protocol
  import opened Invariant
  import opened Statements
  import opened Commits

  ghost predicate ClientOk(s: State, cl: Client) {
    Shape(cl, s.external) && Linked(s.db, cl.w, cl.held)
  }

  /** The committed tables are what the atomic bank makes of the commits so far, each allowed when it happened. */
  ghost predicate Refines(s: State) { Legal(s.history) && s.db == Replay(s.history) }

  /** No two clients hold locks that exclude each other. */
  predicate Exclusion(s: State) {
    forall c, d :: c in s.clients && d in s.clients && c != d ==> Compatible(s.clients[c].held, s.clients[d].held)
  }

  ghost predicate ClientsOk(s: State) { forall c :: c in s.clients ==> ClientOk(s, s.clients[c]) }

  ghost predicate Inv(s: State) { Refines(s) && Exclusion(s) && ClientsOk(s) }

  lemma InvKnowsDb(s: State)
    requires Refines(s)
    ensures DbInv(s.db)
  {
    LegalHistoryKeepsDbInv(s.history);
  }

  // --------------------------------------------------------------------------------------------- one statement

  lemma StatementOk(db: Db, cl: Client, newId: Id, now: nat, clock: nat, external: bool)
    requires DbInv(db) && CanRun(db, cl, external) && Typed(cl) && !cl.pc.Done? && newId !in db.issued
    ensures StepOk(db, cl, DoStatement(db, cl, newId, now, clock, external), external)
  {
    hide StepOk, Shape, Linked, NextLock, RowsOk, AccountsOk, EntriesOk, KeysUnique, BookingsOk, IdsIssued, Typed;
    match cl.pc {
      case Validate => ValidateOk(db, cl, external);
      case Insert => InsertOk(db, cl, newId, now, external);
      case Find => FindOk(db, cl, external);
      case LockRow => LockRowOk(db, cl, clock, external);
      case CountBooked => CountBookedOk(db, cl, external);
      case ReadAcc(n) => ReadAccOk(db, cl, n, external);
      case LockAcc(n) => LockAccOk(db, cl, n, external);
      case UpdateAcc(n) => UpdateAccOk(db, cl, n, external);
      case AddEntry(n) => AddEntryOk(db, cl, n, external);
      case WriteRow => WriteRowOk(db, cl, now, external);
      case CommitTx => CommitOk(db, cl, external);
      case MarkFail => MarkFailOk(db, cl, external);
      case Fetch => FetchOk(db, cl, external);
      case OpenAcc => OpenOk(db, cl, newId, external);
      case WriteAccStatus => SetStatusOk(db, cl, external);
      case LockTables => LockTablesOk(db, cl, external);
      case TruncateAll => TruncateOk(db, cl, external);
    }
  }

  lemma DoKeepsRefines(s: State, c: nat, out: Out)
    requires Refines(s) && c in s.clients && DbInv(s.db) && Effect(s.db, out, s.clients[c].held)
    ensures Refines(Settle(s, c, out))
  {
    hide DbInv, Guard, Exec, OpLocks, Legal, Replay;
    if out.log.Some? { LegalAppend(s.history, Commit(c, out.log.value)); }
  }

  lemma DoKeepsOther(s: State, c: nat, out: Out, d: nat)
    requires Inv(s) && DbInv(s.db) && c in s.clients && d in s.clients && d != c
    requires Effect(s.db, out, s.clients[c].held)
    ensures ClientOk(Settle(s, c, out), s.clients[d])
  {
    hide DbInv, Guard, Exec, OpLocks, Linked, CallShape, PcShape, HeldShape, Conflict;
    var cl := s.clients[d];
    assert ClientOk(s, cl);
    match out.log
    case None =>
    case Some(op) => OthersKeepLinked(s.db, op, cl.w, cl.held, cl.bal);
  }

  lemma DoKeepsInv(s: State, c: nat, out: Out)
    requires Inv(s) && DbInv(s.db) && c in s.clients && StepOk(s.db, s.clients[c], out, s.external)
    ensures Inv(Settle(s, c, out))
  {
    hide DbInv, Effect, Linked, Shape, Refines, ClientOk, Conflict;
    var s' := Settle(s, c, out);
    DoKeepsRefines(s, c, out);
    forall d | d in s'.clients ensures ClientOk(s', s'.clients[d]) {
      if d == c { assert ClientOk(s', out.cl) by { ClientOkHere(s', out.cl); } } else { DoKeepsOther(s, c, out, d); }
    }
  }

  lemma ClientOkHere(s: State, cl: Client)
    requires Shape(cl, s.external) && Linked(s.db, cl.w, cl.held)
    ensures ClientOk(s, cl)
  {
  }

  // ------------------------------------------------------------------------------------------ taking a lock

  lemma {:induction false} FirstMissingIsNeeded(needs: seq<Lock>, held: set<Lock>)
    requires FirstMissing(needs, held).Some?
    ensures FirstMissing(needs, held).value in needs
  {
    if needs[0] in held { FirstMissingIsNeeded(needs[1..], held); }
  }

  lemma MoreHeldShape(cl: Client, l: Lock, external: bool)
    requires Shape(cl, external) && !cl.pc.Done?
    ensures Shape(cl.(held := cl.held + {l}), external)
  {
    MoreHeldReady(cl.w, cl.held, l);
    hide Ready, Updated, Counted, Reads, RowRead, ParamsValid, CallOk, NewEntries, Firsts, Blank;
  }

  lemma MoreHeldReady(w: Work, held: set<Lock>, l: Lock)
    ensures Ready(w, held) ==> Ready(w, held + {l})
  {
    hide NewBalance, Reads;
  }

  /** An account row is locked only when its version still matches what the transaction has read, if anything. */
  lemma AcquiredMatches(db: Db, cl: Client, a: Id, external: bool)
    requires PcShape(cl, external) && AccountRow(a) in Needs(db, cl) && a in cl.w.snap
    ensures VersionMatches(db, cl.w, a)
  {
    hide Ready, Updated, RestShape, AddShape, WriteShape, CommitShape, VersionMatches;
    if cl.pc.LockAcc? { LockAccUnread(cl, cl.pc.n); }
    if cl.pc.WriteAccStatus? { SetStatusUnread(cl); }
  }

  lemma LockAccUnread(cl: Client, n: nat)
    requires LockShape(cl, n)
    ensures ReadAt(cl.w, n) !in cl.w.snap
  {
  }

  lemma SetStatusUnread(cl: Client)
    requires RestShape(cl)
    ensures cl.w.snap == map[]
  {
  }

  lemma MoreHeldLinked(db: Db, cl: Client, external: bool)
    requires Shape(cl, external) && Linked(db, cl.w, cl.held) && NextLock(db, cl).Some?
    ensures Linked(db, cl.w, cl.held + {NextLock(db, cl).value})
  {
    hide Select, PcShape, CallShape, HeldShape, SnapOk, Needs, VersionMatches, Remembers;
    var l := NextLock(db, cl).value;
    FirstMissingIsNeeded(Needs(db, cl), cl.held);
    if l.AccountRow? && l.id in cl.w.snap { AcquiredMatches(db, cl, l.id, external); }
  }

  lemma AcquireKeepsInv(s: State, c: nat)
    requires Inv(s) && Enabled(s, Acquire(c))
    ensures Inv(Apply(s, Acquire(c)))
  {
    hide Shape, Linked, NextLock;
    var cl := s.clients[c];
    var cl' := cl.(held := cl.held + {NextLock(s.db, cl).value});
    assert ClientOk(s, cl);
    assert !cl.pc.Done? by { DoneNeedsNothing(s.db, cl); }
    MoreHeldShape(cl, NextLock(s.db, cl).value, s.external);
    MoreHeldLinked(s.db, cl, s.external);
    var s' := Apply(s, Acquire(c));
    assert s' == Put(s, c, cl');
    assert Refines(s');
    hide Refines;
    forall d | d in s'.clients ensures ClientOk(s', s'.clients[d]) {
      assert d != c ==> ClientOk(s, s.clients[d]);
    }
    AcquireKeepsExclusion(s, c, NextLock(s.db, cl).value);
  }

  lemma DoneNeedsNothing(db: Db, cl: Client)
    ensures cl.pc.Done? ==> NextLock(db, cl) == None
  {
  }

  lemma AcquireKeepsExclusion(s: State, c: nat, l: Lock)
    requires Exclusion(s) && c in s.clients && Free(s, c, l)
    ensures Exclusion(Put(s, c, s.clients[c].(held := s.clients[c].held + {l})))
  {
    var s' := Put(s, c, s.clients[c].(held := s.clients[c].held + {l}));
    forall d, e | d in s'.clients && e in s'.clients && d != e
      ensures Compatible(s'.clients[d].held, s'.clients[e].held)
    {
      assert Compatible(s.clients[d].held, s.clients[e].held);
      forall k, m | k in s'.clients[d].held && m in s'.clients[e].held ensures !Conflict(k, m) {
        ConflictSymmetric(k, m);
      }
    }
  }

  lemma ConflictSymmetric(l: Lock, m: Lock)
    ensures Conflict(l, m) <==> Conflict(m, l)
  {
  }

  // ----------------------------------------------------------------------------- starting, aborting, giving up

  /** A client put in place of c (or a new one) that stands at rest and holds nothing. */
  lemma RestKeepsInv(s: State, c: nat, cl: Client)
    requires Inv(s) && DbInv(s.db) && AtRest(cl) && Remembers(s.db, cl.w)
    ensures Inv(Put(s, c, cl))
  {
    var s' := Put(s, c, cl);
    hide DbInv, Remembers, AtRest, Shape, Linked, Refines;
    RestOk(s.db, cl, cl, s.external) by { InvRows(s.db); }
    assert cl.held == {} by { RestHoldsNothing(cl); }
    hide RestShape;
    assert ClientOk(s', cl);
    forall d | d in s'.clients ensures ClientOk(s', s'.clients[d]) {
      assert d != c ==> ClientOk(s, s.clients[d]);
    }
    assert Refines(s') by { RefinesFrame(s, s'); }
  }

  lemma InvRows(db: Db)
    requires DbInv(db)
    ensures RowsOk(db)
  {
  }

  lemma RestHoldsNothing(cl: Client)
    requires AtRest(cl)
    ensures cl.held == {}
  {
  }

  lemma RefinesFrame(s: State, s': State)
    requires Refines(s) && s'.history == s.history && s'.db == s.db
    ensures Refines(s')
  {
  }

  lemma BeginAtRest(call: Call, clock: nat)
    requires CallOk(call)
    ensures AtRest(StartOf(call, clock)) && Remembers(EMPTY_DB, StartOf(call, clock).w)
    ensures call.CallTransfer? ==> StartOf(call, clock).w.tid == None
  {
  }

  lemma AbortAtRest(cl: Client, external: bool)
    requires Shape(cl, external) && !cl.pc.Done?
    ensures AtRest(Aborted(cl)) && Aborted(cl).w.tid == cl.w.tid && Aborted(cl).w.call == cl.w.call
  {
    hide PcShape, HeldShape, ParamsValid, CallOk;
  }

  lemma LockFailedAtRest(cl: Client, external: bool)
    requires Shape(cl, external) && cl.pc == LockTables
    ensures AtRest(LockFailed(cl)) && LockFailed(cl).w.tid == cl.w.tid && LockFailed(cl).w.call == cl.w.call
  {
    hide HeldShape, ParamsValid, CallOk;
  }

  lemma RemembersSame(db: Db, w: Work, w': Work)
    requires Remembers(db, w) && w'.call == w.call && w'.tid == w.tid
    ensures Remembers(db, w')
  {
  }

  lemma LinkedRemembers(db: Db, w: Work, held: set<Lock>)
    requires Linked(db, w, held)
    ensures Remembers(db, w)
  {
  }

  // ------------------------------------------------------------------------------------------------- every event

  lemma StepKeepsInv(s: State, e: Event)
    requires Inv(s) && Enabled(s, e)
    ensures Inv(Apply(s, e))
  {
    InvKnowsDb(s);
    hide DbInv, Refines, Exclusion, Shape, Linked, Remembers, AtRest, NextLock, DoStatement, StepOk, RowsOk;
    match e {
      case Begin(c, call) =>
        BeginAtRest(call, |s.history|);
        assert Remembers(s.db, StartOf(call, |s.history|).w) by { FreshRemembers(s.db, call, |s.history|); }
        RestKeepsInv(s, c, StartOf(call, |s.history|));
      case Acquire(c) =>
        AcquireKeepsInv(s, c);
      case Do(c, newId, now) =>
        var cl := s.clients[c];
        assert ClientOk(s, cl);
        assert RowsOk(s.db) by { InvRows(s.db); }
        StatementOk(s.db, cl, newId, now, |s.history|, s.external);
        DoKeepsInv(s, c, DoStatement(s.db, cl, newId, now, |s.history|, s.external));
      case Abort(c) =>
        var cl := s.clients[c];
        assert ClientOk(s, cl);
        AbortAtRest(cl, s.external);
        LinkedRemembers(s.db, cl.w, cl.held);
        RemembersSame(s.db, cl.w, Aborted(cl).w);
        RestKeepsInv(s, c, Aborted(cl));
      case LockFail(c) =>
        var cl := s.clients[c];
        assert ClientOk(s, cl);
        LockFailedAtRest(cl, s.external);
        LinkedRemembers(s.db, cl.w, cl.held);
        RemembersSame(s.db, cl.w, LockFailed(cl).w);
        RestKeepsInv(s, c, LockFailed(cl));
    }
  }

  lemma FreshRemembers(db: Db, call: Call, clock: nat)
    ensures Remembers(db, StartOf(call, clock).w)
  {
  }

  /** Refinement. For any number of clients, in any interleaving of their statements, aborts included, the committed
      tables are those of the atomic bank running the committed operations one at a time in commit order, and each
      operation was allowed by that bank when it was committed. */
  lemma {:induction false} EveryInterleavingRefinesTheAtomicBank(external: bool, es: seq<Event>)
    requires ValidRun(external, es)
    ensures Inv(StateAfter(external, es))
    ensures var s := StateAfter(external, es); Legal(s.history) && s.db == Replay(s.history)
  {
    hide Enabled, Apply, ClientOk, Exclusion;
    if es == [] {
      assert Inv(Init(external)) by { InitOk(external); }
    } else {
      var before := es[..|es| - 1];
      EveryInterleavingRefinesTheAtomicBank(external, before);
      StepKeepsInv(StateAfter(external, before), es[|es| - 1]);
    }
  }

  lemma InitOk(external: bool)
    ensures Inv(Init(external))
  {
  }
}
