/** What every client call knows at each statement, and why no other client can make it false. */
module Invariant {
  import opened Common
  import opened Ledger
  import opened Bank
  import opened BankLaws
  import opened History
  import opened Protocol

  // ------------------------------------------------------------------- local facts: the client record alone

  /** Nothing is read under a transaction. */
  predicate Unread(w: Work) { w.row == None && w.count == None && w.snap == map[] }

  predicate Unwritten(cl: Client) { cl.bal == map[] && cl.adds == [] && cl.write == NoWrite }

  /** No transaction is open. */
  predicate NoTx(cl: Client) { Unread(cl.w) && Unwritten(cl) }

  predicate RowFits(w: Work, row: Transfer) {
    w.call.CallTransfer? ==>
      row.from == w.call.from && row.to == w.call.to && row.amount == w.call.amount && row.key == w.call.key
  }

  /** The transfer row is locked and read. */
  predicate RowRead(w: Work, status: TransferStatus) {
    && w.tid.Some? && w.row.Some? && w.row.value.status == status && RowFits(w, w.row.value)
    && w.row.value.from != w.row.value.to && ValidAmount(w.row.value.amount)
  }

  predicate Counted(w: Work, some: bool) {
    RowRead(w, Pending) && w.count.Some? && (some <==> w.count.value > 0)
  }

  function Firsts(a: Id, b: Id, n: nat): set<Id> { if n == 0 then {} else if n == 1 then {a} else {a, b} }

  /** The accounts read so far; a transfer, deposit or withdrawal goes on only past ACTIVE ones. */
  predicate Reads(w: Work, n: nat) {
    && w.snap.Keys == Firsts(ReadAt(w, 0), ReadAt(w, 1), n)
    && (forall a :: a in w.snap ==> 0 <= w.snap[a].balance <= MAX_INT64)
    && (!w.call.CallFail? ==> forall a :: a in w.snap ==> w.snap[a].status == Active)
  }

  predicate RowsHeld(w: Work, held: set<Lock>, n: nat) {
    forall a :: a in Firsts(ReadAt(w, 0), ReadAt(w, 1), n) ==> AccountRow(a) in held
  }

  /** Everything is read and checked; the balances can be written. */
  predicate Ready(w: Work, held: set<Lock>) {
    && Reads(w, Width(w))
    && match w.call
       case CallMutate(a, _, _) => w.row == None && w.count == None && 0 <= NewBalance(w, a)
       case CallTransfer(from, _, amount, _, _) => Counted(w, false) && amount <= SnapBalance(w, from)
       case CallFail(_) => Counted(w, true) && RowsHeld(w, held, 2) && 0 <= NewBalance(w, To(w))
       case _ => false
  }

  predicate Updated(w: Work, bal: map<Id, int>, n: nat) {
    && bal.Keys == Firsts(UpdateAt(w, 0), UpdateAt(w, 1), n)
    && (forall a :: a in bal ==> bal[a] == NewBalance(w, a) && 0 <= bal[a])
  }

  function NewEntries(w: Work, n: nat): seq<Entry> {
    if n == 0 then [] else if n == 1 then [NewEntry(w, 0)] else [NewEntry(w, 0), NewEntry(w, 1)]
  }

  predicate Posted(w: Work, held: set<Lock>, bal: map<Id, int>, adds: seq<Entry>) {
    Ready(w, held) && Updated(w, bal, Width(w)) && adds == NewEntries(w, Width(w))
  }

  predicate Blank(w: Work, bal: map<Id, int>, adds: seq<Entry>) { w.snap == map[] && bal == map[] && adds == [] }

  // What the client has read and written when it stands at a statement.

  predicate CountShape(cl: Client) {
    Typed(cl) && RowRead(cl.w, Pending) && cl.w.count == None && cl.w.snap == map[] && Unwritten(cl)
  }

  predicate ReadShape(cl: Client, n: nat) {
    if cl.w.call.CallMutate? then n == 0 && NoTx(cl)
    else cl.w.call.CallTransfer? && n < 2 && Counted(cl.w, false) && Reads(cl.w, n) && Unwritten(cl)
  }

  predicate LockShape(cl: Client, n: nat) {
    cl.w.call.CallFail? && n < 2 && Counted(cl.w, true) && Reads(cl.w, n) && RowsHeld(cl.w, cl.held, n) && Unwritten(cl)
  }

  predicate UpdateShape(cl: Client, n: nat) {
    n < Width(cl.w) && Ready(cl.w, cl.held) && Updated(cl.w, cl.bal, n) && cl.adds == [] && cl.write == NoWrite
  }

  predicate AddShape(cl: Client, n: nat) {
    && n < Width(cl.w) && Ready(cl.w, cl.held) && Updated(cl.w, cl.bal, Width(cl.w))
    && cl.adds == NewEntries(cl.w, n) && cl.write == NoWrite
  }

  predicate WriteShape(w: Work, held: set<Lock>, bal: map<Id, int>, adds: seq<Entry>, external: bool) {
    match w.call
    case CallTransfer(_, _, _, _, _) => !external && Posted(w, held, bal, adds)
    case CallSettle(_, _) => Counted(w, true) && Blank(w, bal, adds)
    case CallFail(_) => (Counted(w, false) && Blank(w, bal, adds)) || Posted(w, held, bal, adds)
    case _ => false
  }

  predicate CommitShape(w: Work, held: set<Lock>, bal: map<Id, int>, adds: seq<Entry>, write: RowWrite,
                        external: bool) {
    match w.call
    case CallTransfer(_, _, _, _, _) =>
      Posted(w, held, bal, adds) && write == if external then NoWrite else WriteStatus(Settled)
    case CallMutate(_, _, _) => Posted(w, held, bal, adds) && write == NoWrite
    case CallSettle(_, _) =>
      || (RowRead(w, Settled) && w.count == None && Blank(w, bal, adds) && write == NoWrite)
      || (WriteShape(w, held, bal, adds, external) && write.WriteSettled? && write.ref == RefArg(w.call.ref))
    case CallFail(_) =>
      || (RowRead(w, Failed) && w.count == None && Blank(w, bal, adds) && write == NoWrite)
      || (WriteShape(w, held, bal, adds, external) && write == WriteStatus(Failed))
    case _ => false
  }

  /** Where a client may stand with no transaction open. */
  predicate RestShape(cl: Client) {
    && NoTx(cl) && Typed(cl)
    && (cl.pc.OpenAcc? ==> cl.w.call.CallOpen?)
    && (cl.pc.LockTables? || cl.pc.TruncateAll? ==> cl.w.call.CallReset?)
    && (cl.pc.TruncateAll? ==> forall t :: Exclusive(t) in cl.held)
    && (cl.pc.Done? ==> cl.held == {})
  }

  predicate PcShape(cl: Client, external: bool) {
    match cl.pc
    case CountBooked => CountShape(cl)
    case ReadAcc(n) => ReadShape(cl, n)
    case LockAcc(n) => LockShape(cl, n)
    case UpdateAcc(n) => UpdateShape(cl, n)
    case AddEntry(n) => AddShape(cl, n)
    case WriteRow => WriteShape(cl.w, cl.held, cl.bal, cl.adds, external) && cl.write == NoWrite
    case CommitTx => CommitShape(cl.w, cl.held, cl.bal, cl.adds, cl.write, external)
    case _ => RestShape(cl)
  }

  /** Facts about the call that hold at every statement. */
  predicate CallShape(cl: Client) {
    && CallOk(cl.w.call) && cl.attempt < MAX_RETRIES
    && (cl.w.call.CallSettle? ==> cl.w.tid == Some(cl.w.call.settled))
    && (cl.w.call.CallFail? ==> cl.w.tid == Some(cl.w.call.failed))
    && (cl.w.call.CallTransfer? ==>
          && cl.outer < cl.w.call.tries && (ParamsValid(cl.w.call) || cl.pc.Validate? || cl.pc.Done?)
          && (cl.pc == Done(Conflicted) ==> cl.outer + 1 == cl.w.call.tries))
  }

  /** What is read under a transaction is read under locks that last as long as it does. */
  predicate HeldShape(w: Work, held: set<Lock>, bal: map<Id, int>) {
    && (w.row.Some? ==> w.tid.Some? && Shared(Transfers) in held && TransferRow(w.tid.value) in held)
    && (w.count.Some? ==> w.row.Some? && Shared(Entries) in held)
    && (w.snap != map[] ==> Shared(Accounts) in held)
    && (forall a :: a in bal ==> a in w.snap && AccountRow(a) in held)
  }

  predicate Shape(cl: Client, external: bool) {
    CallShape(cl) && PcShape(cl, external) && HeldShape(cl.w, cl.held, cl.bal)
  }

  // ----------------------------------------------------------- linked facts: what was read is still so

  predicate SnapOk(db: Db, a: Id, seen: Account) {
    && a in db.accounts && seen.version <= db.accounts[a].version
    && (seen.version == db.accounts[a].version ==> seen.balance == db.accounts[a].balance)
  }

  /** What a Transfer call remembers of its row between transactions. */
  predicate Remembers(db: Db, w: Work) {
    w.call.CallTransfer? && w.tid.Some? ==>
      && w.tid.value in db.issued
      && (w.tid.value in db.transfers ==> RowFits(w, db.transfers[w.tid.value]))
  }

  /** A row read under its lock is the row now; a plain read is current exactly while the version is. */
  predicate Linked(db: Db, w: Work, held: set<Lock>) {
    && (w.row.Some? && w.tid.Some? ==> w.tid.value in db.transfers && db.transfers[w.tid.value] == w.row.value)
    && (w.count.Some? && w.tid.Some? ==> |EntriesFor(db, w.tid.value)| == w.count.value)
    && (forall a :: a in w.snap ==> SnapOk(db, a, w.snap[a]))
    && (forall a :: a in w.snap && AccountRow(a) in held ==> VersionMatches(db, w, a))
    && Remembers(db, w)
  }

  // ------------------------------------------------------------------------ operations and the locks they need

  function OpLocks(op: Op): set<Lock> {
    match op
    case Book(t, from, to, _, _) => {TransferRow(t), AccountRow(from), AccountRow(to)}
    case Reverse(t, from, to, _) => {TransferRow(t), AccountRow(from), AccountRow(to)}
    case Void(t) => {TransferRow(t)}
    case Confirm(t, _, _) => {TransferRow(t)}
    case MarkFailed(t) => {TransferRow(t)}
    case Mutate(a, _) => {AccountRow(a)}
    case SetStatus(a, _) => {AccountRow(a)}
    case Truncate => {Exclusive(Transfers), Exclusive(Entries), Exclusive(Accounts)}
    case _ => {}
  }

  predicate Compatible(locks: set<Lock>, held: set<Lock>) {
    forall l, m :: l in locks && m in held ==> !Conflict(l, m)
  }

  /** The statement commits nothing, or exactly one atomic operation that the bank allows right now. */
  ghost predicate Effect(db: Db, out: Out, held: set<Lock>)
    requires RowsOk(db)
  {
    match out.log
    case None => out.db == db
    case Some(op) => Guard(db, op) && out.db == Exec(db, op) && OpLocks(op) <= held
  }

  ghost predicate StepOk(db: Db, cl: Client, out: Out, external: bool)
    requires RowsOk(db)
  {
    && Shape(out.cl, external) && Linked(out.db, out.cl.w, out.cl.held) && Effect(db, out, cl.held)
    && out.cl.held <= cl.held && out.cl.w.call == cl.w.call
  }

  /** What another client knows survives an operation that its locks do not exclude: rows. */
  lemma OthersRow(db: Db, op: Op, w: Work, held: set<Lock>, bal: map<Id, int>)
    requires DbInv(db) && Guard(db, op) && HeldShape(w, held, bal) && Linked(db, w, held)
             && Compatible(OpLocks(op), held)
    requires w.row.Some?
    ensures var t, db' := w.tid.value, Exec(db, op);
            t in db'.transfers && db'.transfers[t] == w.row.value && EntriesFor(db', t) == EntriesFor(db, t)
  {
    var t := w.tid.value;
    assert TransferRow(t) in held && Shared(Transfers) in held;
    assert Concerns(op, t) && !op.Create? ==> TransferRow(t) in OpLocks(op) || Exclusive(Transfers) in OpLocks(op);
    assert Conflict(TransferRow(t), TransferRow(t)) && Conflict(Exclusive(Transfers), Shared(Transfers));
    assert t in db.issued;
    ExecOtherTransfer(db, op, t);
  }

  /** What another client knows survives an operation that its locks do not exclude: an account. */
  lemma OthersAccount(db: Db, op: Op, w: Work, held: set<Lock>, bal: map<Id, int>, a: Id)
    requires DbInv(db) && Guard(db, op) && HeldShape(w, held, bal) && Linked(db, w, held)
             && Compatible(OpLocks(op), held)
    requires a in w.snap
    ensures var db' := Exec(db, op);
            SnapOk(db', a, w.snap[a]) && (AccountRow(a) in held ==> VersionMatches(db', w, a))
  {
    hide Exec, Post2, Post, EntriesOk, AccountsOk, KeysUnique, BookingsOk;
    assert Conflict(Exclusive(Accounts), Shared(Accounts)) && Conflict(AccountRow(a), AccountRow(a));
    assert Shared(Accounts) in held && SnapOk(db, a, w.snap[a]);
    assert AccountRow(a) in held ==> VersionMatches(db, w, a);
    assert op.Truncate? ==> Exclusive(Accounts) in OpLocks(op);
    assert a in db.issued;
    ExecRows(db, op);
    VersionStep(db, op, a);
    hide Exec, DbInv, HeldShape, Linked, Guard;
    if Touches(op, a) { assert AccountRow(a) in OpLocks(op); }
  }

  lemma OthersIdentity(db: Db, op: Op, w: Work)
    requires DbInv(db) && Guard(db, op) && Remembers(db, w)
    ensures Remembers(Exec(db, op), w)
  {
    ExecIssued(db, op);
    if !op.Truncate? { ExecRows(db, op); }
    hide Exec, RowsOk;
  }

  /** Non-interference. */
  lemma OthersKeepLinked(db: Db, op: Op, w: Work, held: set<Lock>, bal: map<Id, int>)
    requires DbInv(db) && Guard(db, op) && HeldShape(w, held, bal) && Linked(db, w, held)
             && Compatible(OpLocks(op), held)
    ensures Linked(Exec(db, op), w, held)
  {
    if w.row.Some? { OthersRow(db, op, w, held, bal); }
    OthersIdentity(db, op, w);
    hide Exec, Guard, SnapOk, VersionMatches, Remembers, DbInv;
    forall a | a in w.snap
      ensures SnapOk(Exec(db, op), a, w.snap[a]) && (AccountRow(a) in held ==> VersionMatches(Exec(db, op), w, a))
    {
      OthersAccount(db, op, w, held, bal, a);
    }
  }
}
