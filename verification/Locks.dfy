/** Lock order: which calls wait for locks in one order only, and how the others come to wait for each other in a
    circle. */
module Locks {
  import opened Common
  import opened Ledger
  import opened Bank
  import opened Protocol
  import opened Invariant
  import opened Statements
  import opened Refinement

  /** transfers, entries, accounts; rows after their table, account rows by identifier, each before its key. */
  function Rank(l: Lock): nat {
    match l
    case Shared(Transfers) => 0
    case Exclusive(Transfers) => 0
    case TransferRow(_) => 1
    case Shared(Entries) => 2
    case Exclusive(Entries) => 2
    case Shared(Accounts) => 3
    case Exclusive(Accounts) => 3
    case AccountRow(a) => 4 + 2 * a
    case AccountKey(a) => 5 + 2 * a
    case SharedKey(a) => 5 + 2 * a
  }

  lemma ConflictingLocksRankTheSame(l: Lock, m: Lock)
    requires Conflict(l, m)
    ensures Rank(l) == Rank(m)
  {
  }

  // ------------------------------------------------------------------------------ what a client can be holding

  function RowBound(cl: Client): set<Lock> {
    {Shared(Transfers)} + (if cl.w.tid.Some? then {TransferRow(cl.w.tid.value)} else {})
  }

  function TableBound(cl: Client): set<Lock> { RowBound(cl) + {Shared(Entries), Shared(Accounts)} }

  /** The n-th account: FOR UPDATE in a reversal, for its update otherwise. */
  function RowOfAccount(cl: Client, n: nat): set<Lock> {
    {AccountRow(ReadAt(cl.w, n))} + (if cl.w.call.CallFail? then {AccountKey(ReadAt(cl.w, n))} else {})
  }

  function BothRows(cl: Client): set<Lock> { TableBound(cl) + RowOfAccount(cl, 0) + RowOfAccount(cl, 1) }

  function InsertBound(cl: Client): set<Lock> {
    {Shared(Transfers), Shared(Accounts)}
    + (if cl.w.call.CallTransfer? then {SharedKey(cl.w.call.from), SharedKey(cl.w.call.to)} else {})
  }

  /** The most that a call, other than a deposit or withdrawal, holds at a statement. */
  function Bound(cl: Client): set<Lock> {
    match cl.pc
    case Insert => InsertBound(cl)
    case Find => {Shared(Transfers)}
    case Fetch => {Shared(Transfers)}
    case LockRow => RowBound(cl)
    case MarkFail => RowBound(cl)
    case CountBooked => RowBound(cl) + {Shared(Entries)}
    case ReadAcc(_) => TableBound(cl)
    case LockAcc(n) => if n == 0 then TableBound(cl) + RowOfAccount(cl, 0) else BothRows(cl)
    case UpdateAcc(n) =>
      if n == 0 && cl.w.call.CallTransfer? then TableBound(cl) + RowOfAccount(cl, 0) else BothRows(cl)
    case AddEntry(_) => BothRows(cl)
    case WriteRow => BothRows(cl)
    case CommitTx => BothRows(cl)
    case OpenAcc => {Shared(Accounts)}
    case WriteAccStatus =>
      {Shared(Accounts)} + (if cl.w.call.CallSetStatus? then {AccountRow(cl.w.call.account)} else {})
    case LockTables => {Exclusive(Transfers), Exclusive(Entries), Exclusive(Accounts)}
    case TruncateAll => {Exclusive(Transfers), Exclusive(Entries), Exclusive(Accounts)}
    case Validate => {}
    case Done(_) => {}
  }

  /** Tables are locked before their rows, rows before their keys, and LOCK TABLE takes its three tables in order. */
  ghost predicate TableFirst(held: set<Lock>) {
    && (forall t :: TransferRow(t) in held ==> Shared(Transfers) in held)
    && (forall a :: AccountRow(a) in held ==> Shared(Accounts) in held)
    && (forall a :: SharedKey(a) in held ==> Shared(Accounts) in held)
    && (forall a :: AccountKey(a) in held ==> AccountRow(a) in held)
    && (Exclusive(Accounts) in held ==> Exclusive(Entries) in held)
    && (Exclusive(Entries) in held ==> Exclusive(Transfers) in held)
  }

  function MutateBound(cl: Client): set<Lock> {
    {Shared(Accounts), AccountRow(From(cl.w))} + (if cl.pc.AddEntry? || cl.pc.CommitTx? then {Shared(Entries)} else {})
  }

  /** An INSERT is checked against the account from before it is against the account to. */
  predicate FromFirst(cl: Client) {
    cl.pc.Insert? ==>
      && (Shared(Accounts) in cl.held ==> Shared(Transfers) in cl.held)
      && (cl.w.call.CallTransfer? && SharedKey(cl.w.call.to) in cl.held ==> SharedKey(cl.w.call.from) in cl.held)
  }

  ghost predicate HeldBounded(cl: Client) {
    TableFirst(cl.held) && FromFirst(cl) && cl.held <= if cl.w.call.CallMutate? then MutateBound(cl) else Bound(cl)
  }

  ghost predicate Bounded(s: State) { forall c :: c in s.clients ==> HeldBounded(s.clients[c]) }

  lemma {:induction false} MissingAt(needs: seq<Lock>, held: set<Lock>) returns (i: nat)
    requires FirstMissing(needs, held).Some?
    ensures i < |needs| && needs[i] == FirstMissing(needs, held).value && needs[i] !in held
    ensures forall j :: 0 <= j < i ==> needs[j] in held
  {
    if needs[0] in held {
      var k := MissingAt(needs[1..], held);
      i := k + 1;
      forall j | 0 <= j < i ensures needs[j] in held {
        if j > 0 { assert needs[j] == needs[1..][j - 1]; }
      }
    } else {
      i := 0;
    }
  }

  /** Every list of needs is one table, one table and one of its rows, perhaps with its key, the locks of an INSERT, or
      the three tables of LOCK TABLE. */
  ghost predicate NeedsFit(cl: Client, needs: seq<Lock>) {
    && (forall i :: 0 <= i < |needs| ==> needs[i] in Bound(cl))
    && (needs == [] || needs == [Exclusive(Transfers), Exclusive(Entries), Exclusive(Accounts)]
        || (|needs| <= 2 && needs[0].Shared?
            && (|needs| == 2 ==> (needs[1].TransferRow? && needs[0].table == Transfers)
                                 || (needs[1].AccountRow? && needs[0].table == Accounts)))
        || ReversalNeeds(needs) || cl.pc.Insert?)
    && (cl.pc.Insert? ==> cl.w.call.CallTransfer? && needs <= FullInsert(cl))
  }

  lemma InsertFits(cl: Client, needs: seq<Lock>)
    requires NeedsFit(cl, needs) && cl.pc.Insert?
    ensures cl.w.call.CallTransfer? && needs <= FullInsert(cl)
  {
    hide Bound;
  }

  predicate ReversalNeeds(needs: seq<Lock>) {
    |needs| == 3 && needs[0] == Shared(Accounts) && needs[1].AccountRow? && needs[2] == AccountKey(needs[1].id)
  }

  function FullInsert(cl: Client): seq<Lock>
    requires cl.w.call.CallTransfer?
  {
    [Shared(Transfers), Shared(Accounts), SharedKey(cl.w.call.from), SharedKey(cl.w.call.to)]
  }

  lemma NeedsAreBound(db: Db, cl: Client, external: bool)
    requires Shape(cl, external) && !cl.w.call.CallMutate?
    ensures NeedsFit(cl, Needs(db, cl))
  {
    AccountPcs(cl, external);
    ShapeIsTyped(cl, external);
    hide Shape, VersionMatches, KeyTaken;
    if cl.pc.LockAcc? || cl.pc.UpdateAcc? || cl.pc.WriteAccStatus? {
      if cl.pc.UpdateAcc? { ShapeOfUpdate(cl, external); ReadyCall(cl.w, cl.held); }
      AccountNeedsFit(db, cl);
      hide Needs, NeedsFit, Bound, ReadAt, UpdateAt, Ready;
    }
  }

  lemma AccountNeedsFit(db: Db, cl: Client)
    requires !cl.w.call.CallMutate? && (cl.pc.LockAcc? || cl.pc.UpdateAcc? || cl.pc.WriteAccStatus?)
    requires (cl.pc.UpdateAcc? ==> cl.w.call.CallTransfer? || cl.w.call.CallFail?)
             && (cl.pc.LockAcc? ==> cl.w.call.CallFail?)
    ensures NeedsFit(cl, Needs(db, cl))
  {
    hide VersionMatches;
  }

  lemma AcquireStaysBounded(db: Db, cl: Client, external: bool)
    requires Shape(cl, external) && HeldBounded(cl) && NextLock(db, cl).Some? && !cl.w.call.CallMutate?
    ensures HeldBounded(cl.(held := cl.held + {NextLock(db, cl).value}))
  {
    hide Shape, Needs, FirstMissing, TableFirst, NeedsFit, FromFirst, Bound;
    NeedsAreBound(db, cl, external);
    var i := MissingAt(Needs(db, cl), cl.held);
    SameBound(cl, NextLock(db, cl).value);
    TakesTablesFirst(cl, Needs(db, cl), i);
    InBound(cl, Needs(db, cl), i);
    StaysFromFirst(cl, Needs(db, cl), i);
  }

  lemma SameBound(cl: Client, l: Lock)
    ensures Bound(cl.(held := cl.held + {l})) == Bound(cl)
  {
  }

  lemma StaysFromFirst(cl: Client, needs: seq<Lock>, i: nat)
    requires FromFirst(cl) && NeedsFit(cl, needs) && i < |needs| && forall j :: 0 <= j < i ==> needs[j] in cl.held
    ensures FromFirst(cl.(held := cl.held + {needs[i]}))
  {
    hide NeedsFit;
    if cl.pc.Insert? { InsertFits(cl, needs); FromIsHeld(cl, needs, i); }
  }

  lemma InBound(cl: Client, needs: seq<Lock>, i: nat)
    requires NeedsFit(cl, needs) && i < |needs|
    ensures needs[i] in Bound(cl)
  {
    hide Bound;
  }

  /** The lock that has to be taken before another. */
  function Prior(l: Lock): Option<Lock> {
    match l
    case TransferRow(_) => Some(Shared(Transfers))
    case AccountRow(_) => Some(Shared(Accounts))
    case SharedKey(_) => Some(Shared(Accounts))
    case AccountKey(a) => Some(AccountRow(a))
    case Exclusive(Entries) => Some(Exclusive(Transfers))
    case Exclusive(Accounts) => Some(Exclusive(Entries))
    case _ => None
  }

  lemma PriorComesFirst(cl: Client, needs: seq<Lock>, i: nat)
    requires NeedsFit(cl, needs) && i < |needs| && Prior(needs[i]).Some?
    ensures exists j :: 0 <= j < i && needs[j] == Prior(needs[i]).value
  {
    hide Bound;
    if cl.pc.Insert? {
      assert needs[i] == FullInsert(cl)[i] && i >= 2 && needs[1] == FullInsert(cl)[1] == Shared(Accounts);
    } else if ReversalNeeds(needs) {
      assert i > 0 && needs[i - 1] == Prior(needs[i]).value;
    } else if |needs| <= 2 {
      assert i == 1 && needs[0] == Prior(needs[i]).value;
    } else {
      assert i > 0 && needs[i - 1] == Prior(needs[i]).value;
    }
  }

  lemma TakesTablesFirst(cl: Client, needs: seq<Lock>, i: nat)
    requires TableFirst(cl.held) && NeedsFit(cl, needs) && i < |needs| && forall j :: 0 <= j < i ==> needs[j] in cl.held
    ensures TableFirst(cl.held + {needs[i]})
  {
    if Prior(needs[i]).Some? { PriorComesFirst(cl, needs, i); }
    hide NeedsFit;
    assert Prior(needs[i]).Some? ==> Prior(needs[i]).value in cl.held;
  }

  /** By the time the INSERT comes to the account to, it has the account from. */
  lemma FromIsHeld(cl: Client, needs: seq<Lock>, i: nat)
    requires NeedsFit(cl, needs) && cl.pc.Insert? && cl.w.call.CallTransfer? && i < |needs|
    requires forall j :: 0 <= j < i ==> needs[j] in cl.held
    ensures needs[i] == Shared(Accounts) ==> Shared(Transfers) in cl.held
    ensures needs[i] == SharedKey(cl.w.call.to) ==>
              SharedKey(cl.w.call.from) in cl.held || cl.w.call.from == cl.w.call.to
  {
    hide Bound;
    assert needs <= FullInsert(cl) by { InsertFits(cl, needs); }
    assert needs[i] == FullInsert(cl)[i];
    if i > 0 { assert needs[0] == FullInsert(cl)[0]; }
    if i == 3 { assert needs[2] == FullInsert(cl)[2]; }
  }

  /** A statement that runs leaves its client holding no more than the next one may: stated for each move. */
  predicate BoundGrows(cl: Client, cl': Client) {
    cl'.held == {} || (cl'.held == cl.held && Bound(cl) <= Bound(cl') && !cl'.pc.Insert?)
  }

  lemma ReadsKeepOrder(w: Work, a: Id, acc: Account, n: nat)
    ensures ReadAt(w.(snap := w.snap[a := acc]), n) == ReadAt(w, n)
  {
  }

  lemma BoundByAccount(db: Db, cl: Client, n: nat)
    requires !cl.w.call.CallMutate?
    ensures cl.pc == ReadAcc(n) && cl.w.call.CallTransfer? ==> BoundGrows(cl, DoReadAcc(db, cl, n).cl)
    ensures cl.pc == LockAcc(n) && cl.w.call.CallFail? ==> BoundGrows(cl, DoLockAcc(db, cl, n).cl)
  {
    var a := ReadAt(cl.w, n);
    if a in db.accounts {
      ReadsKeepOrder(cl.w, a, db.accounts[a], 0);
      ReadsKeepOrder(cl.w, a, db.accounts[a], 1);
    }
    hide ReadAt, NewBalance, Continues;
  }

  lemma BoundByUpdate(db: Db, cl: Client, n: nat)
    requires !cl.w.call.CallMutate? && cl.pc == UpdateAcc(n)
    ensures BoundGrows(cl, DoUpdateAcc(db, cl, n).cl)
  {
    hide ReadAt, NewBalance, Continues, UpdateAt, VersionMatches;
  }

  lemma BoundByRow(db: Db, cl: Client, clock: nat, external: bool)
    requires cl.w.tid.Some? && (cl.w.call.CallTransfer? || cl.w.call.CallSettle? || cl.w.call.CallFail?)
    ensures cl.pc.LockRow? ==> BoundGrows(cl, DoLockRow(db, cl, clock, external).cl)
    ensures cl.pc.CountBooked? ==> BoundGrows(cl, DoCountBooked(db, cl, external).cl)
  {
    hide Select, ReadAt, Continues;
  }

  lemma BoundElsewhere(db: Db, cl: Client, newId: Id, now: nat, clock: nat, external: bool)
    requires Typed(cl) && !cl.w.call.CallMutate? && !cl.pc.Done?
    requires !cl.pc.ReadAcc? && !cl.pc.LockAcc? && !cl.pc.UpdateAcc? && !cl.pc.LockRow? && !cl.pc.CountBooked?
    requires cl.pc.Validate? ==> cl.held == {}
    ensures BoundGrows(cl, DoStatement(db, cl, newId, now, clock, external).cl)
  {
    hide DoReadAcc, DoLockAcc, DoUpdateAcc, DoConflict, DoLockRow, DoCountBooked;
    hide Publish, CommittedOp, NewEntry, ParamsValid, Continues, KeyTaken, RowIs, ReadAt;
  }

  // Deposits and withdrawals have four statements.

  lemma MutatePcs(cl: Client, external: bool)
    requires Shape(cl, external) && cl.w.call.CallMutate? && !cl.pc.Done?
    ensures cl.pc == ReadAcc(0) || cl.pc == UpdateAcc(0) || cl.pc == AddEntry(0) || cl.pc == CommitTx
  {
    hide CallShape, HeldShape, RowRead, Ready, Updated, NewEntries;
  }

  lemma MutateStaysBounded(db: Db, cl: Client, newId: Id, now: nat, clock: nat, external: bool)
    requires Typed(cl) && Shape(cl, external) && HeldBounded(cl) && !cl.pc.Done? && cl.w.call.CallMutate?
    ensures HeldBounded(DoStatement(db, cl, newId, now, clock, external).cl)
  {
    MutatePcs(cl, external);
    hide Shape, NewBalance, Publish, CommittedOp, NewEntry, Continues, Bound, VersionMatches, ReadAt, UpdateAt;
    hide DoInsert, DoFind, DoLockRow, DoCountBooked, DoLockAcc, DoValidate, DoWriteRow, DoMarkFail, DoFetch, TableFirst;
    var cl' := DoStatement(db, cl, newId, now, clock, external).cl;
    assert cl'.w.call == cl.w.call && !cl'.pc.Insert? && (cl'.held == {} || (cl'.held == cl.held && !cl.pc.CommitTx?));
    assert cl'.pc.AddEntry? || cl'.pc.CommitTx? || !cl.pc.AddEntry? || cl'.held == {};
    hide DoStatement;
    if cl'.held == {} { NothingHeld(cl'); }
  }

  lemma MutateAcquires(db: Db, cl: Client, external: bool)
    requires Shape(cl, external) && HeldBounded(cl) && NextLock(db, cl).Some? && cl.w.call.CallMutate? && !cl.pc.Done?
    ensures HeldBounded(cl.(held := cl.held + {NextLock(db, cl).value}))
  {
    MutatePcs(cl, external);
    var i := MissingAt(Needs(db, cl), cl.held);
    hide Shape, FirstMissing, VersionMatches, Bound;
  }

  lemma StatementStaysBounded(db: Db, cl: Client, newId: Id, now: nat, clock: nat, external: bool)
    requires Typed(cl) && Shape(cl, external) && HeldBounded(cl) && !cl.pc.Done?
    ensures HeldBounded(DoStatement(db, cl, newId, now, clock, external).cl)
  {
    if !cl.w.call.CallMutate? {
      hide Bound, BoundGrows, TableFirst, Shape, DoReadAcc;
      hide DoLockAcc, DoUpdateAcc, DoConflict, DoLockRow, DoCountBooked;
      if cl.pc.ReadAcc? || cl.pc.LockAcc? {
        assert (cl.pc.ReadAcc? ==> cl.w.call.CallTransfer?) && (cl.pc.LockAcc? ==> cl.w.call.CallFail?) by {
          AccountPcs(cl, external);
        }
        BoundByAccount(db, cl, cl.pc.n);
      } else if cl.pc.UpdateAcc? {
        BoundByUpdate(db, cl, cl.pc.n);
      } else if cl.pc.LockRow? || cl.pc.CountBooked? {
        BoundByRow(db, cl, clock, external);
      } else {
        if cl.pc.Validate? { ValidateHoldsNothing(cl); }
        BoundElsewhere(db, cl, newId, now, clock, external);
      }
      hide DoStatement;
      GrowsStaysBounded(cl, DoStatement(db, cl, newId, now, clock, external).cl);
    } else {
      MutateStaysBounded(db, cl, newId, now, clock, external);
    }
  }

  lemma GrowsStaysBounded(cl: Client, cl': Client)
    requires HeldBounded(cl) && BoundGrows(cl, cl') && cl'.w.call == cl.w.call && !cl.w.call.CallMutate?
    ensures HeldBounded(cl')
  {
    hide Bound;
  }

  lemma AccountPcs(cl: Client, external: bool)
    requires Shape(cl, external) && !cl.w.call.CallMutate?
    ensures (cl.pc.ReadAcc? ==> cl.w.call.CallTransfer?) && (cl.pc.LockAcc? ==> cl.w.call.CallFail?)
  {
    hide UpdateShape, AddShape, WriteShape, CommitShape, RestShape, CountShape, CallShape, HeldShape;
  }

  lemma ValidateHoldsNothing(cl: Client)
    requires HeldBounded(cl) && cl.pc.Validate? && !cl.w.call.CallMutate?
    ensures cl.held == {}
  {
  }

  lemma PutStaysBounded(s: State, c: nat, cl: Client)
    requires Bounded(s) && HeldBounded(cl)
    ensures Bounded(Put(s, c, cl))
  {
    hide HeldBounded;
  }

  lemma NothingHeld(cl: Client)
    requires cl.held == {}
    ensures HeldBounded(cl)
  {
    hide Bound;
  }

  lemma StepStaysBounded(s: State, e: Event)
    requires Inv(s) && Bounded(s) && Enabled(s, e)
    ensures Bounded(Apply(s, e))
  {
    hide HeldBounded, DoStatement, NextLock, Free, Inv, Shape;
    match e {
      case Begin(c, call) =>
        NothingHeld(StartOf(call, |s.history|));
        PutStaysBounded(s, c, StartOf(call, |s.history|));
      case Acquire(c) =>
        var cl := s.clients[c];
        InvClient(s, c);
        DoneNeedsNothing(s.db, cl);
        if cl.w.call.CallMutate? { MutateAcquires(s.db, cl, s.external); }
        else { AcquireStaysBounded(s.db, cl, s.external); }
        PutStaysBounded(s, c, cl.(held := cl.held + {NextLock(s.db, cl).value}));
      case Do(c, newId, now) =>
        InvClient(s, c);
        StatementStaysBounded(s.db, s.clients[c], newId, now, |s.history|, s.external);
        PutStaysBounded(s, c, DoStatement(s.db, s.clients[c], newId, now, |s.history|, s.external).cl);
      case Abort(c) =>
        NothingHeld(Aborted(s.clients[c]));
        PutStaysBounded(s, c, Aborted(s.clients[c]));
      case LockFail(c) =>
        NothingHeld(LockFailed(s.clients[c]));
        PutStaysBounded(s, c, LockFailed(s.clients[c]));
    }
  }

  lemma InvClient(s: State, c: nat)
    requires Inv(s) && c in s.clients
    ensures Shape(s.clients[c], s.external) && Linked(s.db, s.clients[c].w, s.clients[c].held)
  {
    assert ClientOk(s, s.clients[c]);
  }

  lemma {:induction false} BoundedAlways(external: bool, es: seq<Event>)
    requires ValidRun(external, es)
    ensures Bounded(StateAfter(external, es))
  {
    hide Enabled, Apply, HeldBounded, Inv;
    if es != [] {
      var before := es[..|es| - 1];
      BoundedAlways(external, before);
      EveryInterleavingRefinesTheAtomicBank(external, before);
      StepStaysBounded(StateAfter(external, before), es[|es| - 1]);
    }
  }

  // ------------------------------------------------------------------------------------------ locks go up in rank

  /** A deposit or withdrawal that already holds its account and has yet to lock the table of entries. */
  predicate WantsEntries(cl: Client) { cl.w.call.CallMutate? && cl.pc.AddEntry? && Shared(Entries) !in cl.held }

  ghost predicate Ascends(held: set<Lock>, next: Lock) { forall l :: l in held ==> Rank(l) < Rank(next) }

  /** A lock on an account. */
  predicate OnAccount(l: Lock) { l.AccountRow? || l.AccountKey? || l.SharedKey? }

  /** A lock of lower rank, next itself, or one that is only ever taken after next. */
  predicate BelowOrInside(l: Lock, next: Lock) {
    || Rank(l) < Rank(next)
    || l == next
    || (next == Shared(Accounts) && OnAccount(l))
    || (next == Shared(Transfers) && l.TransferRow?)
    || (next == Exclusive(Entries) && l == Exclusive(Accounts))
    || (next == Exclusive(Transfers) && (l == Exclusive(Entries) || l == Exclusive(Accounts)))
  }

  lemma TableAscends(held: set<Lock>, bound: set<Lock>, next: Lock)
    requires held <= bound && TableFirst(held) && next !in held && !OnAccount(next)
    requires forall l :: l in bound ==> BelowOrInside(l, next)
    ensures Ascends(held, next)
  {
  }

  lemma RowAscends(held: set<Lock>, bound: set<Lock>, next: Lock)
    requires held <= bound && TableFirst(held) && (next.AccountRow? || next.AccountKey?) && next !in held
    requires forall l :: l in bound && OnAccount(l) ==> !l.SharedKey? && l.id <= next.id
    ensures Ascends(held, next)
  {
  }

  /** The accounts of a transfer are two, and taken in the order of their identifiers. */
  lemma ReadsAscend(cl: Client, external: bool)
    requires Shape(cl, external) && (cl.pc.LockAcc? || cl.pc.UpdateAcc?) && !cl.w.call.CallMutate?
    ensures ReadAt(cl.w, 0) < ReadAt(cl.w, 1)
  {
    hide Updated, Reads, NewBalance, NewEntries, RowsHeld, HeldShape;
  }

  /** A reversal updates rows it holds, and its entries' table was locked to count them. */
  lemma AlreadyHeld(db: Db, cl: Client, external: bool)
    requires Shape(cl, external) && HeldBounded(cl) && !cl.w.call.CallMutate?
    ensures cl.pc.AddEntry? || (cl.pc.UpdateAcc? && cl.w.call.CallFail?) ==> NextLock(db, cl) == None
  {
    if cl.pc.AddEntry? { EntriesHeld(cl, external); }
    if cl.pc.UpdateAcc? && cl.w.call.CallFail? { ShapeOfUpdate(cl, external); RowsAreHeld(cl, cl.pc.n); }
    hide Shape, Bound, VersionMatches, UpdateAt, FirstMissing;
    if cl.pc.AddEntry? || (cl.pc.UpdateAcc? && cl.w.call.CallFail?) { AllHeld(Needs(db, cl), cl.held); }
  }

  lemma ShapeOfUpdate(cl: Client, external: bool)
    requires Shape(cl, external) && cl.pc.UpdateAcc?
    ensures UpdateShape(cl, cl.pc.n)
  {
    hide UpdateShape, CallShape, HeldShape;
  }

  lemma {:induction false} AllHeld(needs: seq<Lock>, held: set<Lock>)
    requires forall l :: l in needs ==> l in held
    ensures FirstMissing(needs, held) == None
  {
    if needs != [] { AllHeld(needs[1..], held); }
  }

  lemma EntriesHeld(cl: Client, external: bool)
    requires Shape(cl, external) && !cl.w.call.CallMutate? && cl.pc.AddEntry?
    ensures Shared(Entries) in cl.held
  {
    hide Updated, Reads, NewBalance, NewEntries, RowsHeld, CallShape;
  }

  lemma RowsAreHeld(cl: Client, n: nat)
    requires UpdateShape(cl, n) && cl.w.call.CallFail?
    ensures AccountRow(UpdateAt(cl.w, n)) in cl.held
  {
    hide Updated, Reads, NewBalance;
  }

  /** An INSERT of a transfer that goes down in the order of accounts: it has been checked against the account from, and
      is yet to be checked against the smaller account to. */
  predicate GoesDown(cl: Client) {
    && cl.pc.Insert? && cl.w.call.CallTransfer? && cl.w.call.to < cl.w.call.from
    && SharedKey(cl.w.call.from) in cl.held && SharedKey(cl.w.call.to) !in cl.held
  }

  /** Every call but a deposit or withdrawal and an INSERT that goes down takes its locks in order. */
  lemma ServiceAscends(db: Db, cl: Client, external: bool)
    requires Shape(cl, external) && HeldBounded(cl) && NextLock(db, cl).Some? && !cl.w.call.CallMutate?
    ensures Ascends(cl.held, NextLock(db, cl).value)
            || (GoesDown(cl) && NextLock(db, cl).value == SharedKey(cl.w.call.to))
  {
    AlreadyHeld(db, cl, external);
    AccountPcs(cl, external);
    if cl.pc.LockAcc? || cl.pc.UpdateAcc? { ReadsAscend(cl, external); }
    if cl.pc.UpdateAcc? { ShapeOfUpdate(cl, external); ReadyCall(cl.w, cl.held); }
    hide Ready;
    var i := MissingAt(Needs(db, cl), cl.held);
    hide Shape, FirstMissing, VersionMatches, Bound, Needs, FromFirst, GoesDown;
    var next := NextLock(db, cl).value;
    if cl.pc.Insert? {
      ShapeIsTyped(cl, external);
      InsertAscends(db, cl, i);
    } else if OnAccount(next) {
      RowsInBound(db, cl, next);
      RowAscends(cl.held, Bound(cl), next);
    } else {
      TablesInBound(db, cl, next);
      TableAscends(cl.held, Bound(cl), next);
    }
  }

  lemma InsertAscends(db: Db, cl: Client, i: nat)
    requires HeldBounded(cl) && cl.pc.Insert? && cl.w.call.CallTransfer?
    requires i < |Needs(db, cl)| && Needs(db, cl)[i] !in cl.held
    requires forall j :: 0 <= j < i ==> Needs(db, cl)[j] in cl.held
    ensures var next := Needs(db, cl)[i]; Ascends(cl.held, next) || (GoesDown(cl) && next == SharedKey(cl.w.call.to))
  {
    hide KeyTaken;
    var needs := Needs(db, cl);
    assert needs <= FullInsert(cl);
    assert needs[i] == FullInsert(cl)[i];
    if i == 3 { assert needs[2] == FullInsert(cl)[2]; }
  }

  lemma RowsInBound(db: Db, cl: Client, next: Lock)
    requires next in Needs(db, cl) && OnAccount(next) && !cl.pc.Insert?
    requires !cl.w.call.CallMutate? && (cl.pc.UpdateAcc? ==> cl.w.call.CallTransfer?)
    requires cl.pc.LockAcc? || cl.pc.UpdateAcc? ==> ReadAt(cl.w, 0) < ReadAt(cl.w, 1)
    ensures forall l :: l in Bound(cl) && OnAccount(l) ==> !l.SharedKey? && l.id <= next.id
  {
    hide From, To, VersionMatches, KeyTaken;
  }

  lemma TablesInBound(db: Db, cl: Client, next: Lock)
    requires next in Needs(db, cl) && !OnAccount(next) && !cl.w.call.CallMutate? && !cl.pc.AddEntry? && !cl.pc.Insert?
    requires cl.pc.ReadAcc? ==> cl.w.call.CallTransfer?
    ensures forall l :: l in Bound(cl) ==> BelowOrInside(l, next)
  {
    hide ReadAt, UpdateAt, VersionMatches, KeyTaken;
  }

  lemma MutateAscends(db: Db, cl: Client, external: bool)
    requires Shape(cl, external) && HeldBounded(cl) && NextLock(db, cl).Some? && cl.w.call.CallMutate? && !cl.pc.Done?
    ensures Ascends(cl.held, NextLock(db, cl).value) || WantsEntries(cl)
  {
    MutatePcs(cl, external);
    var i := MissingAt(Needs(db, cl), cl.held);
    hide Shape, FirstMissing, VersionMatches, Bound;
    var next := Needs(db, cl)[i];
    assert cl.pc.AddEntry? || next == Shared(Accounts) || (next == AccountRow(From(cl.w)) && cl.pc.UpdateAcc?);
    hide Needs;
    if !cl.pc.AddEntry? { MutateInOrder(cl, next); }
  }

  lemma MutateInOrder(cl: Client, next: Lock)
    requires HeldBounded(cl) && cl.w.call.CallMutate? && next !in cl.held && !cl.pc.AddEntry? && !cl.pc.CommitTx?
    requires next == Shared(Accounts) || next == AccountRow(From(cl.w))
    ensures Ascends(cl.held, next)
  {
  }

  // ----------------------------------------------------------------------------------------------- wait cycles

  /** Client c cannot go on before client d lets go of a lock. */
  predicate WaitsFor(s: State, c: nat, d: nat) {
    && c in s.clients && d in s.clients && c != d
    && var next := NextLock(s.db, s.clients[c]);
       next.Some? && exists m :: m in s.clients[d].held && Conflict(next.value, m)
  }

  predicate IsReset(s: State, c: nat) { c in s.clients && s.clients[c].w.call.CallReset? }

  predicate IsMutate(s: State, c: nat) { c in s.clients && s.clients[c].w.call.CallMutate? }

  /** The rank of the lock that client c wants next, if any. */
  function RankWanted(s: State, c: nat): nat {
    if c in s.clients && NextLock(s.db, s.clients[c]).Some? then Rank(NextLock(s.db, s.clients[c]).value) else 0
  }

  lemma ResetPcs(cl: Client, external: bool)
    requires Shape(cl, external)
    ensures cl.pc.LockTables? || cl.pc.TruncateAll? ==> cl.w.call.CallReset?
  {
    hide CallShape, HeldShape;
  }

  /** Only a reset locks out a whole table. */
  lemma OnlyResetsExclude(cl: Client, external: bool, l: Lock)
    requires Shape(cl, external) && HeldBounded(cl) && l in cl.held && l.Exclusive?
    ensures cl.w.call.CallReset?
  {
    ResetPcs(cl, external);
    hide Shape, TableFirst;
  }

  /** Client d is a deposit or withdrawal that has updated its account and wants the table of entries, which client e, a
      reset, has locked before it could lock the accounts. */
  predicate Stuck(s: State, d: nat, e: nat) {
    IsMutate(s, d) && WantsEntries(s.clients[d]) && IsReset(s, e) && Exclusive(Entries) in s.clients[e].held
  }

  /** Client d inserts a transfer that goes down in the order of accounts, and client e, which fails another transfer,
      has the account that d comes to last FOR UPDATE. */
  predicate Crossed(s: State, d: nat, e: nat) {
    && d in s.clients && e in s.clients && GoesDown(s.clients[d])
    && NextLock(s.db, s.clients[d]) == Some(SharedKey(s.clients[d].w.call.to))
    && s.clients[e].w.call.CallFail? && AccountKey(s.clients[d].w.call.to) in s.clients[e].held
  }

  /** The two ways to wait for a lock that ranks below one held. */
  predicate OutOfOrder(s: State, d: nat, e: nat) { Stuck(s, d, e) || Crossed(s, d, e) }

  lemma WantsEntriesNext(db: Db, cl: Client)
    requires WantsEntries(cl)
    ensures NextLock(db, cl) == Some(Shared(Entries))
  {
  }

  /** Only a reversal takes accounts FOR UPDATE. */
  lemma OnlyFailsTakeKeys(cl: Client, a: Id)
    requires HeldBounded(cl) && AccountKey(a) in cl.held
    ensures cl.w.call.CallFail?
  {
    hide TableFirst, ReadAt;
  }

  /** Client d wants a lock of higher rank than all it holds, or does so out of order. */
  lemma WaiterAscends(s: State, d: nat, e: nat)
    requires Inv(s) && Bounded(s) && WaitsFor(s, d, e)
    ensures Ascends(s.clients[d].held, NextLock(s.db, s.clients[d]).value) || OutOfOrder(s, d, e)
  {
    InvClient(s, d);
    InvClient(s, e);
    DoneNeedsNothing(s.db, s.clients[d]);
    assert HeldBounded(s.clients[d]) && HeldBounded(s.clients[e]);
    hide Inv, Bounded, HeldBounded, Shape, Linked, NextLock, Rank, WantsEntries, GoesDown, Ascends;
    if IsMutate(s, d) {
      MutateAscends(s.db, s.clients[d], s.external);
      if WantsEntries(s.clients[d]) {
        WantsEntriesNext(s.db, s.clients[d]);
        OnlyResetsExclude(s.clients[e], s.external, Exclusive(Entries));
      }
    } else {
      ServiceAscends(s.db, s.clients[d], s.external);
      if GoesDown(s.clients[d]) {
        var next := NextLock(s.db, s.clients[d]).value;
        if next == SharedKey(s.clients[d].w.call.to) { OnlyFailsTakeKeys(s.clients[e], s.clients[d].w.call.to); }
      }
    }
  }

  /** Where c waits for d and d waits for e, d wants a lock of higher rank than the one c wants, unless it is out of
      order. */
  lemma WaitingAscends(s: State, c: nat, d: nat, e: nat)
    requires Inv(s) && Bounded(s) && WaitsFor(s, c, d) && WaitsFor(s, d, e)
    ensures RankWanted(s, c) < RankWanted(s, d) || OutOfOrder(s, d, e)
  {
    WaiterAscends(s, d, e);
    hide Inv, Bounded, NextLock, Rank, OutOfOrder;
    var l := NextLock(s.db, s.clients[c]).value;
    var m :| m in s.clients[d].held && Conflict(l, m);
    ConflictingLocksRankTheSame(l, m);
  }

  function Following(n: nat, i: nat): nat
    requires i < n
  {
    if i + 1 < n then i + 1 else 0
  }

  /** Each client waits for the one after it, and the last one for the first. */
  predicate WaitCycle(s: State, cs: seq<nat>) {
    cs != [] && forall i :: 0 <= i < |cs| ==> WaitsFor(s, cs[i], cs[Following(|cs|, i)])
  }

  /** Some client of the circle waits out of order for the one after it. */
  predicate OutOfOrderWithin(s: State, cs: seq<nat>) {
    exists i :: 0 <= i < |cs| && OutOfOrder(s, cs[i], cs[Following(|cs|, i)])
  }

  lemma {:induction false} CycleAscends(s: State, cs: seq<nat>, n: nat)
    requires Inv(s) && Bounded(s) && WaitCycle(s, cs) && n < |cs| && !OutOfOrderWithin(s, cs)
    ensures n > 0 ==> RankWanted(s, cs[0]) < RankWanted(s, cs[n])
  {
    hide Inv, Bounded, WaitsFor, RankWanted, OutOfOrder;
    if n > 0 {
      CycleAscends(s, cs, n - 1);
      assert Following(|cs|, n - 1) == n;
      assert WaitsFor(s, cs[n - 1], cs[n]) && WaitsFor(s, cs[n], cs[Following(|cs|, n)]);
      WaitingAscends(s, cs[n - 1], cs[n], cs[Following(|cs|, n)]);
    }
  }

  lemma CycleIsOutOfOrder(s: State, cs: seq<nat>)
    requires Inv(s) && Bounded(s) && WaitCycle(s, cs)
    ensures OutOfOrderWithin(s, cs)
  {
    hide Inv, Bounded, WaitsFor, RankWanted, OutOfOrder;
    var n := |cs|;
    if !OutOfOrderWithin(s, cs) {
      CycleAscends(s, cs, n - 1);
      assert Following(n, n - 1) == 0;
      assert WaitsFor(s, cs[n - 1], cs[0]) && WaitsFor(s, cs[0], cs[Following(n, 0)]);
      WaitingAscends(s, cs[n - 1], cs[0], cs[Following(n, 0)]);
    }
  }

  /** Each client waits for the one after it. */
  predicate WaitChain(s: State, cs: seq<nat>) { forall i :: 0 <= i < |cs| - 1 ==> WaitsFor(s, cs[i], cs[i + 1]) }

  /** Client e waits for d, or for somebody who waits for d, and so on. */
  ghost predicate Reaches(s: State, e: nat, d: nat) {
    exists cs: seq<nat> :: |cs| > 1 && cs[0] == e && cs[|cs| - 1] == d && WaitChain(s, cs)
  }

  /** Round a circle every client comes back to itself. */
  lemma CycleReaches(s: State, cs: seq<nat>, i: nat)
    requires WaitCycle(s, cs) && i < |cs| && |cs| > 1
    ensures Reaches(s, cs[Following(|cs|, i)], cs[i])
  {
    hide WaitsFor;
    var n := |cs|;
    var round := cs[i + 1..] + cs[..i + 1];
    assert round[0] == cs[Following(n, i)] && round[n - 1] == cs[i];
    forall k | 0 <= k < n - 1 ensures WaitsFor(s, round[k], round[k + 1]) {
      var j := if k < n - 1 - i then i + 1 + k else k - (n - 1 - i);
      assert round[k] == cs[j] && round[k + 1] == cs[Following(n, j)];
    }
    assert WaitChain(s, round);
  }

  /** Nobody waits for himself. */
  lemma CycleOfTwo(s: State, cs: seq<nat>)
    requires WaitCycle(s, cs)
    ensures |cs| > 1
  {
    assert WaitsFor(s, cs[0], cs[Following(|cs|, 0)]);
  }

  /** A client that is waited for by whom it waits for is on a circle. */
  lemma ChainCloses(s: State, d: nat, e: nat)
    requires WaitsFor(s, d, e) && Reaches(s, e, d)
    ensures exists cs :: WaitCycle(s, cs)
  {
    hide WaitsFor;
    var cs: seq<nat> :| |cs| > 1 && cs[0] == e && cs[|cs| - 1] == d && WaitChain(s, cs);
    assert WaitCycle(s, cs);
  }

  lemma CrossedWaits(s: State, d: nat, e: nat)
    requires Crossed(s, d, e)
    ensures WaitsFor(s, d, e)
  {
    hide NextLock;
    assert Conflict(SharedKey(s.clients[d].w.call.to), AccountKey(s.clients[d].w.call.to));
  }

  /** The deposit read its account, and so it holds the table of accounts. */
  lemma HoldsAccounts(cl: Client, external: bool)
    requires Shape(cl, external) && WantsEntries(cl)
    ensures Shared(Accounts) in cl.held
  {
    hide CallShape, Updated, NewEntries, NewBalance, Counted;
  }

  /** A reset that holds the entries and cannot have the accounts waits for them. */
  lemma WantsAccounts(db: Db, cl: Client, external: bool)
    requires Shape(cl, external) && HeldBounded(cl) && cl.w.call.CallReset?
    requires Exclusive(Entries) in cl.held && Exclusive(Accounts) !in cl.held
    ensures NextLock(db, cl) == Some(Exclusive(Accounts))
  {
    assert cl.pc == LockTables by { ResetStands(cl, external); }
    hide Shape, Bound;
    var needs := Needs(db, cl);
    assert needs[1..] == [Exclusive(Entries), Exclusive(Accounts)] && needs[1..][1..] == [Exclusive(Accounts)];
    assert FirstMissing(needs, cl.held) == FirstMissing(needs[1..], cl.held) == FirstMissing(needs[1..][1..], cl.held);
  }

  lemma ResetStands(cl: Client, external: bool)
    requires Shape(cl, external) && cl.w.call.CallReset? && cl.held != {} && Exclusive(Accounts) !in cl.held
    ensures cl.pc == LockTables
  {
    ResetShape(cl, external);
    if cl.pc.TruncateAll? { HoldsAll(cl, external); }
    if cl.pc.Done? { DoneHoldsNothing(cl, external); }
  }

  lemma HoldsAll(cl: Client, external: bool)
    requires Shape(cl, external) && cl.pc.TruncateAll?
    ensures Exclusive(Accounts) in cl.held
  {
    hide CallShape, HeldShape;
  }

  lemma KeepApart(s: State, d: nat, e: nat)
    requires Inv(s) && d in s.clients && e in s.clients && d != e
    ensures Compatible(s.clients[d].held, s.clients[e].held)
  {
    hide Refines, ClientsOk, Compatible;
  }

  lemma StuckIsCycle(s: State, d: nat, e: nat)
    requires Inv(s) && Bounded(s) && Stuck(s, d, e)
    ensures WaitCycle(s, [d, e])
  {
    InvClient(s, d);
    InvClient(s, e);
    assert HeldBounded(s.clients[e]) && d != e;
    KeepApart(s, d, e);
    hide Inv, Bounded, HeldBounded, Shape, Linked, NextLock, WantsEntries;
    WantsEntriesNext(s.db, s.clients[d]);
    HoldsAccounts(s.clients[d], s.external);
    assert Conflict(Shared(Accounts), Exclusive(Accounts)) && Conflict(Shared(Entries), Exclusive(Entries));
    assert Conflict(Exclusive(Accounts), Shared(Accounts));
    WantsAccounts(s.db, s.clients[e], s.external);
    assert WaitsFor(s, d, e) && WaitsFor(s, e, d);
    assert Following(2, 0) == 1 && Following(2, 1) == 0;
  }

  /** In every reachable state, whatever runs concurrently, calls wait for each other in a circle if and only if some
      deposit or withdrawal has updated its account and wants the table of entries from a reset that holds it, or some
      INSERT that goes down waits for a Fail that in turn waits for it. Every circle passes through such a pair, and a
      deposit or withdrawal and its reset are a circle by themselves. */
  lemma WaitCyclesExactly(external: bool, es: seq<Event>)
    requires ValidRun(external, es)
    ensures var s := StateAfter(external, es);
            && ((exists cs :: WaitCycle(s, cs)) <==>
                  (exists d, e :: Stuck(s, d, e)) || (exists d, e :: Crossed(s, d, e) && Reaches(s, e, d)))
            && (forall cs :: WaitCycle(s, cs) ==> OutOfOrderWithin(s, cs))
            && (forall d, e :: Stuck(s, d, e) ==> WaitCycle(s, [d, e]))
  {
    EveryInterleavingRefinesTheAtomicBank(external, es);
    BoundedAlways(external, es);
    hide StateAfter, ValidRun, Inv, Bounded, WaitCycle, Stuck, Crossed, Reaches;
    var s := StateAfter(external, es);
    forall cs | WaitCycle(s, cs)
      ensures OutOfOrderWithin(s, cs)
      ensures (exists d, e :: Stuck(s, d, e)) || (exists d, e :: Crossed(s, d, e) && Reaches(s, e, d))
    {
      CycleIsOutOfOrder(s, cs);
      CycleOfTwo(s, cs);
      var i :| 0 <= i < |cs| && OutOfOrder(s, cs[i], cs[Following(|cs|, i)]);
      CycleReaches(s, cs, i);
    }
    forall d, e | Stuck(s, d, e) ensures WaitCycle(s, [d, e]) {
      StuckIsCycle(s, d, e);
    }
    forall d, e | Crossed(s, d, e) && Reaches(s, e, d) ensures exists cs :: WaitCycle(s, cs) {
      CrossedWaits(s, d, e);
      ChainCloses(s, d, e);
    }
  }

  // ------------------------------------------------------------------------------------------------- progress

  /** The client can take a lock or run its statement right now, whatever identifier it is handed. */
  ghost predicate CanMove(s: State, c: nat) {
    && c in s.clients && !s.clients[c].pc.Done?
    && (Enabled(s, Acquire(c)) || forall newId: Id, now: nat :: newId !in s.db.issued ==> Enabled(s, Do(c, newId, now)))
  }

  lemma BlockedByLock(s: State, c: nat)
    requires Unfinished(s, c) && !CanMove(s, c) && Typed(s.clients[c])
    ensures exists d :: WaitsFor(s, c, d)
  {
    hide NextLock, Typed, Conflict;
    var next := NextLock(s.db, s.clients[c]);
    assert next.Some?;
    var d, m :| d in s.clients && d != c && m in s.clients[d].held && Conflict(next.value, m);
    assert WaitsFor(s, c, d);
  }

  lemma BlockedWaits(s: State, c: nat)
    requires Inv(s) && Unfinished(s, c) && !CanMove(s, c)
    ensures exists d :: Unfinished(s, d) && WaitsFor(s, c, d)
  {
    hide Inv, Shape, Linked, NextLock, Typed, CanMove, Conflict;
    InvClient(s, c);
    ShapeIsTyped(s.clients[c], s.external);
    BlockedByLock(s, c);
    var d :| WaitsFor(s, c, d);
    InvClient(s, d);
    if s.clients[d].pc.Done? { DoneHoldsNothing(s.clients[d], s.external); }
    assert Unfinished(s, d);
  }

  lemma ShapeIsTyped(cl: Client, external: bool)
    requires Shape(cl, external)
    ensures Typed(cl)
  {
    hide CallShape, HeldShape, Counted, Reads, Ready, Posted, WriteShape, CommitShape;
  }

  lemma DoneHoldsNothing(cl: Client, external: bool)
    requires Shape(cl, external) && cl.pc.Done?
    ensures cl.held == {}
  {
    hide CallShape, HeldShape;
  }

  /** A chain of waiting clients that never comes back to one of them ends at a client that can move. */
  lemma {:induction false} ChainEnds(s: State, path: seq<nat>, seen: set<nat>)
    requires Inv(s) && path != [] && WaitChain(s, path) && !exists cs :: WaitCycle(s, cs)
    requires seen <= s.clients.Keys && (forall c :: c in path <==> c in seen) && Unfinished(s, path[|path| - 1])
    ensures exists d :: CanMove(s, d)
    decreases |s.clients.Keys - seen|
  {
    hide Inv, WaitsFor, CanMove;
    var c := path[|path| - 1];
    if !CanMove(s, c) {
      BlockedWaits(s, c);
      var d :| Unfinished(s, d) && WaitsFor(s, c, d);
      if d in path {
        ChainMeetsItself(s, path, d);
      } else {
        assert s.clients.Keys - (seen + {d}) < s.clients.Keys - seen;
        SmallerSet(s.clients.Keys - (seen + {d}), s.clients.Keys - seen);
        ChainEnds(s, path + [d], seen + {d});
      }
    }
  }

  lemma ChainMeetsItself(s: State, path: seq<nat>, d: nat)
    requires path != [] && WaitChain(s, path) && d in path && WaitsFor(s, path[|path| - 1], d)
    ensures exists cs :: WaitCycle(s, cs)
  {
    hide WaitsFor;
    var i :| 0 <= i < |path| && path[i] == d;
    var cs := path[i..];
    forall k | 0 <= k < |cs| ensures WaitsFor(s, cs[k], cs[Following(|cs|, k)]) {
      if k + 1 < |cs| { assert WaitsFor(s, path[i + k], path[i + k + 1]); }
    }
    assert WaitCycle(s, cs);
  }

  lemma SmallerSet(a: set<nat>, b: set<nat>)
    requires a < b
    ensures |a| < |b|
  {
    var x :| x in b && x !in a;
    assert a <= b - {x};
    SubsetCount(a, b - {x});
  }

  lemma {:induction false} SubsetCount(a: set<nat>, b: set<nat>)
    requires a <= b
    ensures |a| <= |b|
  {
    if a != {} {
      var x :| x in a;
      SubsetCount(a - {x}, b - {x});
    }
  }

  /** As long as a call is unfinished some client can take a step, at every moment of every run in which nobody waits in
      a circle at that moment. */
  lemma SomeClientCanMove(external: bool, es: seq<Event>, c: nat)
    requires ValidRun(external, es) && Unfinished(StateAfter(external, es), c)
    requires !exists cs :: WaitCycle(StateAfter(external, es), cs)
    ensures exists d :: CanMove(StateAfter(external, es), d)
  {
    EveryInterleavingRefinesTheAtomicBank(external, es);
    hide StateAfter, ValidRun, Inv, CanMove, WaitCycle;
    ChainEnds(StateAfter(external, es), [c], {c});
  }

  // ------------------------------------------------------------------------------------------- bounded retries

  /** How often client c's LOCK TABLE has given up in a run. */
  function LockFailures(es: seq<Event>, c: nat): nat {
    if es == [] then 0
    else LockFailures(es[..|es| - 1], c) + (if es[|es| - 1] == LockFail(c) then 1 else 0)
  }

  /** A reset gives up at most three times, and after the third is over. */
  lemma {:induction false} ResetRetriesAreBounded(external: bool, es: seq<Event>, c: nat)
    requires ValidRun(external, es)
    ensures LockFailures(es, c) <= 3
    ensures var s := StateAfter(external, es);
            (c !in s.clients ==> LockFailures(es, c) == 0)
            && (c in s.clients && s.clients[c].w.call.CallReset? && !s.clients[c].pc.Done? ==>
                  LockFailures(es, c) <= s.clients[c].attempt)
            && (c in s.clients && !s.clients[c].w.call.CallReset? ==> LockFailures(es, c) == 0)
  {
    if es != [] {
      var before, e := es[..|es| - 1], es[|es| - 1];
      ResetRetriesAreBounded(external, before, c);
      EveryInterleavingRefinesTheAtomicBank(external, before);
      RetryStep(StateAfter(external, before), e, c);
      hide StateAfter, ValidRun, Inv, Apply, Enabled;
    }
  }

  /** The attempts of a reset go up with its lock failures only. */
  predicate RetryMove(cl: Client, cl': Client, failed: bool) {
    && cl'.w.call == cl.w.call
    && (cl.w.call.CallReset? && !cl'.pc.Done? ==> !cl.pc.Done? && cl'.attempt == cl.attempt + if failed then 1 else 0)
    && (failed ==> cl.w.call.CallReset? && !cl.pc.Done? && cl.attempt < MAX_RETRIES)
  }

  lemma RetryStep(s: State, e: Event, c: nat)
    requires Inv(s) && Enabled(s, e)
    ensures var s' := Apply(s, e);
            if c in s.clients then c in s'.clients && RetryMove(s.clients[c], s'.clients[c], e == LockFail(c))
            else e != LockFail(c) && (c in s'.clients && s'.clients[c].w.call.CallReset? ==> s'.clients[c].attempt == 0)
  {
    hide NextLock, Free, Inv, Shape, Linked, DoStatement, Typed;
    if c in s.clients {
      InvClient(s, c);
      ResetPcs(s.clients[c], s.external);
      ResetShape(s.clients[c], s.external);
      if e.Do? && e.client == c { ResetStatement(s.db, s.clients[c], e.newId, e.now, |s.history|, s.external); }
    }
  }

  lemma ResetShape(cl: Client, external: bool)
    requires Shape(cl, external)
    ensures cl.attempt < MAX_RETRIES
    ensures cl.w.call.CallReset? ==> cl.pc.LockTables? || cl.pc.TruncateAll? || cl.pc.Done?
  {
    if cl.pc.UpdateAcc? || cl.pc.AddEntry? { ReadyCall(cl.w, cl.held); }
    hide HeldShape, Counted, Reads, RowRead, Ready, Posted, Updated, NewEntries;
  }

  lemma ResetStatement(db: Db, cl: Client, newId: Id, now: nat, clock: nat, external: bool)
    requires Typed(cl)
    ensures var cl' := DoStatement(db, cl, newId, now, clock, external).cl;
            cl.pc.LockTables? || cl.pc.TruncateAll? ==> cl'.attempt == cl.attempt
  {
    hide DoInsert, DoFind, DoLockRow, DoCountBooked, DoReadAcc, DoLockAcc, DoUpdateAcc, DoCommit;
  }
}
