/** The concurrent bank: any number of client calls, each a program counter over SQL statements, interleaved
    statement by statement under PostgreSQL's Read Committed rules. Every statement reads the latest committed
    tables, writes stay private to the transaction until COMMIT publishes them at once, and row and table locks
    are kept from the statement that takes them to the end of the transaction. */
module Protocol {
  import opened Common
  import opened Ledger
  import opened Bank
  import opened History

  const MAX_RETRIES := 3

  // ------------------------------------------------------------------------------------------------- locks

  datatype Table = Transfers | Entries | Accounts

  /** Shared stands for every table lock mode below ACCESS EXCLUSIVE. An UPDATE that leaves the keys alone locks a row,
      FOR UPDATE its key as well, and a foreign key that is checked against the row shares its key: section 13.3.2 of
      the PostgreSQL 16 manual. */
  datatype Lock =
    | Shared(table: Table)
    | Exclusive(table: Table)
    | TransferRow(id: Id)
    | AccountRow(id: Id)
    | AccountKey(id: Id)
    | SharedKey(id: Id)

  predicate Conflict(l: Lock, m: Lock) {
    match l
    case Shared(t) => m == Exclusive(t)
    case Exclusive(t) => m == Shared(t) || m == Exclusive(t)
    case SharedKey(a) => m == AccountKey(a)
    case AccountKey(a) => m == SharedKey(a) || m == AccountKey(a)
    case _ => l == m
  }

  // ----------------------------------------------------------------------------------------------- clients

  /** A call to one of the services. tries is 1 for the API and 5 for a worker of the load simulator,
      which repeats a call that returned CONFLICT. */
  datatype Call =
    | CallTransfer(from: Id, to: Id, amount: int, key: string, tries: nat)
    | CallSettle(settled: Id, ref: string)
    | CallFail(failed: Id)
    | CallMutate(account: Id, delta: int, typ: EntryType)
    | CallOpen
    | CallSetStatus(account: Id, status: AccountStatus)
    | CallReset

  /** account.Service.Deposit and Withdraw; the handler lets only positive amounts through. */
  function Deposit(a: Id, amount: int): Call { CallMutate(a, amount, Credit) }

  function Withdraw(a: Id, amount: int): Call { CallMutate(a, -amount, Debit) }

  predicate CallOk(call: Call) {
    match call
    case CallTransfer(_, _, amount, _, tries) => IsInt64(amount) && tries > 0
    case CallMutate(a, delta, Credit) => ValidAmount(delta)
    case CallMutate(a, delta, Debit) => ValidAmount(-delta)
    case _ => true
  }

  datatype Result =
    | Accepted(status: TransferStatus)
    | Completed
    | Invalid(failed: bool)
    | Conflicted
    | NotFound
    | SettleOnFailed
    | FailOnSettled
    | NotBooked
    | VersionConflict
    | Internal

  /** The next statement of a call. */
  datatype Pc =
    | Validate
    | Insert
    | Find
    | LockRow
    | CountBooked
    | ReadAcc(n: nat)
    | LockAcc(n: nat)
    | UpdateAcc(n: nat)
    | AddEntry(n: nat)
    | WriteRow
    | CommitTx
    | MarkFail
    | Fetch
    | OpenAcc
    | WriteAccStatus
    | LockTables
    | TruncateAll
    | Done(result: Result)

  datatype RowWrite = NoWrite | WriteStatus(status: TransferStatus) | WriteSettled(at: nat, ref: Option<string>)

  /** What a call works on: its arguments, the transfer at hand, and what its transaction has read so far. */
  datatype Work = Work(call: Call, tid: Option<Id>, row: Option<Transfer>, count: Option<nat>, snap: map<Id, Account>)

  /** A call in progress: retry counters, locks held, private writes (bal, adds, write); for the record, how often
      its key turned out to belong to other parameters (clashed), and the history lengths at which the call (begun)
      and its current attempt (epoch) started. */
  datatype Client = Client(w: Work, pc: Pc, outer: nat, attempt: nat, held: set<Lock>, bal: map<Id, int>,
                           adds: seq<Entry>, write: RowWrite, clashed: nat, begun: nat, epoch: nat)

  function Knowing(cl: Client, tid: Option<Id>): Client { cl.(w := cl.w.(tid := tid)) }

  /** ROLLBACK or the end of the transaction: nothing stays held, read or privately written. */
  function EndTx(cl: Client, pc: Pc): Client {
    cl.(w := Work(cl.w.call, cl.w.tid, None, None, map[]), pc := pc, held := {}, bal := map[], adds := [],
        write := NoWrite)
  }

  function StartOf(call: Call, clock: nat): Client {
    var pc := match call
      case CallTransfer(_, _, _, _, _) => Validate
      case CallSettle(_, _) => LockRow
      case CallFail(_) => LockRow
      case CallMutate(_, _, _) => ReadAcc(0)
      case CallOpen => OpenAcc
      case CallSetStatus(_, _) => WriteAccStatus
      case CallReset => LockTables;
    var tid := match call case CallSettle(t, _) => Some(t) case CallFail(t) => Some(t) case _ => None;
    Client(Work(call, tid, None, None, map[]), pc, 0, 0, {}, map[], [], NoWrite, 0, clock, clock)
  }

  /** order(a, b): the two accounts of a transfer in identifier order. */
  function Order(a: Id, b: Id): (Id, Id) { if a < b then (a, b) else (b, a) }

  /** Origin, destination and amount of the transfer at hand. Transfer uses its own arguments, Fail the locked row. */
  function From(w: Work): Id {
    match w.call
    case CallTransfer(from, _, _, _, _) => from
    case CallMutate(a, _, _) => a
    case _ => if w.row.Some? then w.row.value.from else 0
  }

  function To(w: Work): Id {
    match w.call
    case CallTransfer(_, to, _, _, _) => to
    case CallMutate(a, _, _) => a
    case _ => if w.row.Some? then w.row.value.to else 0
  }

  function Amount(w: Work): int {
    match w.call
    case CallTransfer(_, _, amount, _, _) => amount
    case CallMutate(_, delta, _) => if delta < 0 then -delta else delta
    case _ => if w.row.Some? then w.row.value.amount else 0
  }

  /** What the call adds to the balance of account a. */
  function Delta(w: Work, a: Id): int {
    match w.call
    case CallMutate(_, delta, _) => delta
    case CallTransfer(_, _, _, _, _) => if a == From(w) then -Amount(w) else Amount(w)
    case _ => if a == From(w) then Amount(w) else -Amount(w)
  }

  function PostType(w: Work, a: Id): EntryType {
    match w.call
    case CallMutate(_, _, typ) => typ
    case CallTransfer(_, _, _, _, _) => if a == From(w) then Debit else Credit
    case _ => if a == From(w) then Credit else Debit
  }

  /** How many accounts the call works on. */
  function Width(w: Work): nat { if w.call.CallMutate? then 1 else 2 }

  /** The account read or locked n-th, updated n-th, and posted to n-th. */
  function ReadAt(w: Work, n: nat): Id {
    var (first, second) := Order(From(w), To(w));
    if n == 0 then first else second
  }

  function UpdateAt(w: Work, n: nat): Id {
    if w.call.CallTransfer? then ReadAt(w, n) else if n == 0 then From(w) else To(w)
  }

  function PostAt(w: Work, n: nat): Id { if n == 0 then From(w) else To(w) }

  function SnapBalance(w: Work, a: Id): int { if a in w.snap then w.snap[a].balance else 0 }

  /** The balance the call computes from its snapshot, in int64 arithmetic. */
  function NewBalance(w: Work, a: Id): int { Wrap64(SnapBalance(w, a) + Delta(w, a)) }

  function NewEntry(w: Work, n: nat): Entry {
    var a := PostAt(w, n);
    Entry(a, PostType(w, a), Amount(w), NewBalance(w, a), if w.call.CallMutate? then None else w.tid)
  }

  // ---------------------------------------------------------------------------------- locks of a statement

  function RowNeeds(db: Db, t: Option<Id>): seq<Lock> {
    [Shared(Transfers)] + (if t.Some? && t.value in db.transfers then [TransferRow(t.value)] else [])
  }

  /** An INSERT with a new key is checked against both accounts, from before to. */
  function InsertNeeds(db: Db, from: Id, to: Id): seq<Lock> {
    [Shared(Transfers), Shared(Accounts)]
    + (if from !in db.accounts then []
       else if to !in db.accounts then [SharedKey(from)]
       else [SharedKey(from), SharedKey(to)])
  }

  predicate VersionMatches(db: Db, w: Work, a: Id) {
    a in db.accounts && a in w.snap && db.accounts[a].version == w.snap[a].version
  }

  /** The locks of the statement at hand, in the order it takes them. A row that does not exist, or that an
      UPDATE does not qualify because its version moved on, is not locked. */
  function Needs(db: Db, cl: Client): seq<Lock> {
    match cl.pc
    case Insert =>
      if cl.w.call.CallTransfer? && !KeyTaken(db, cl.w.call.key) then InsertNeeds(db, cl.w.call.from, cl.w.call.to)
      else [Shared(Transfers)]
    case Find => [Shared(Transfers)]
    case LockRow => RowNeeds(db, cl.w.tid)
    case CountBooked => [Shared(Entries)]
    case ReadAcc(_) => [Shared(Accounts)]
    case LockAcc(n) =>
      var a := ReadAt(cl.w, n);
      [Shared(Accounts)] + (if a in db.accounts then [AccountRow(a), AccountKey(a)] else [])
    case UpdateAcc(n) =>
      var a := UpdateAt(cl.w, n);
      [Shared(Accounts)] + (if VersionMatches(db, cl.w, a) then [AccountRow(a)] else [])
    case AddEntry(_) => [Shared(Entries)]
    case MarkFail => RowNeeds(db, cl.w.tid)
    case Fetch => [Shared(Transfers)]
    case OpenAcc => [Shared(Accounts)]
    case WriteAccStatus =>
      [Shared(Accounts)] +
      (if cl.w.call.CallSetStatus? && cl.w.call.account in db.accounts then [AccountRow(cl.w.call.account)] else [])
    case LockTables => [Exclusive(Transfers), Exclusive(Entries), Exclusive(Accounts)]
    case _ => []
  }

  function FirstMissing(needs: seq<Lock>, held: set<Lock>): Option<Lock> {
    if needs == [] then None
    else if needs[0] !in held then Some(needs[0])
    else FirstMissing(needs[1..], held)
  }

  /** The lock the client must take, and may have to wait for, before its statement can run. */
  function NextLock(db: Db, cl: Client): Option<Lock> { FirstMissing(Needs(db, cl), cl.held) }

  // ---------------------------------------------------------------------------------------------- statements

  /** No statement changes what call it belongs to or when that began, and only the one that locks the transfer row
      starts an attempt. A Transfer call that found or made its row remembers it until it starts over. A raw version
      conflict comes from an UPDATE of an account only. */
  predicate Continues(cl: Client, cl': Client) {
    && cl'.w.call == cl.w.call && cl'.begun == cl.begun
    && (cl'.epoch == cl.epoch || cl.pc.LockRow?)
    && (cl.w.tid.Some? || cl.outer > 0 ==> cl'.w.tid.Some? || cl'.outer > 0)
    && (cl'.pc == Done(VersionConflict) ==> cl.pc.UpdateAcc? || cl.pc.Done?)
  }

  /** What a statement leaves: the committed tables, the client, and the operation if something was committed. */
  datatype Out = Out(db: Db, cl: Client, log: Option<Op>)

  function Stay(db: Db, cl: Client): Out { Out(db, cl, None) }

  /** Return from a call; a worker of the simulator repeats a Transfer that ended in CONFLICT. */
  function Return(db: Db, cl: Client, result: Result): Out {
    if cl.w.call.CallTransfer? && result == Conflicted && cl.outer + 1 < cl.w.call.tries then
      Stay(db, Knowing(EndTx(cl, Validate), None).(outer := cl.outer + 1, attempt := 0))
    else
      Stay(db, EndTx(cl, Done(result)))
  }

  function SuccessOf(external: bool): Result { Accepted(if external then Pending else Settled) }

  predicate ParamsValid(call: Call) {
    call.CallTransfer? && call.key != "" && call.from != call.to && call.amount > 0
  }

  function DoValidate(db: Db, cl: Client): (out: Out)
    ensures Continues(cl, out.cl)
  {
    if ParamsValid(cl.w.call) then Stay(db, cl.(pc := Insert)) else Return(db, cl, Invalid(false))
  }

  predicate KeyTaken(db: Db, key: string) {
    exists t :: t in db.transfers && db.transfers[t].key == key
  }

  function RowOf(call: Call, now: nat): Transfer
    requires call.CallTransfer?
  {
    Transfer(call.from, call.to, call.amount, call.key, Pending, None, None, now)
  }

  function DoInsert(db: Db, cl: Client, newId: Id, now: nat): (out: Out)
    requires cl.w.call.CallTransfer?
    ensures Continues(cl, out.cl)
  {
    if KeyTaken(db, cl.w.call.key) then Stay(db, EndTx(cl, Find))
    else if cl.w.call.from !in db.accounts || cl.w.call.to !in db.accounts then Return(db, cl, Internal)
    else
      var row := RowOf(cl.w.call, now);
      Out(SetRow(db, newId, row).(issued := db.issued + {newId}),
          Knowing(EndTx(cl, LockRow), Some(newId)).(attempt := 0), Some(Create(newId, row)))
  }

  ghost function ByKey(db: Db, key: string): (t: Id)
    requires KeyTaken(db, key)
    ensures t in db.transfers && db.transfers[t].key == key
  {
    var t :| t in db.transfers && db.transfers[t].key == key;
    t
  }

  ghost function DoFind(db: Db, cl: Client): (out: Out)
    requires cl.w.call.CallTransfer?
    ensures Continues(cl, out.cl)
  {
    if !KeyTaken(db, cl.w.call.key) then Return(db, cl, Internal)
    else
      var t := ByKey(db, cl.w.call.key);
      var row := db.transfers[t];
      if !RowIs(db, t, cl.w.call.from, cl.w.call.to, cl.w.call.amount)
      then Return(db, cl.(clashed := cl.clashed + 1), Conflicted)
      else if row.status == Settled then Return(db, Knowing(cl, Some(t)), Accepted(Settled))
      else if row.status == Failed then Return(db, Knowing(cl, Some(t)), Invalid(true))
      else Stay(db, Knowing(EndTx(cl, LockRow), Some(t)).(attempt := 0))
  }

  /** SELECT ... FROM transfers WHERE id = $1 FOR UPDATE, and the branch on the status read. */
  function DoLockRow(db: Db, cl: Client, clock: nat, external: bool): (out: Out)
    requires cl.w.tid.Some? && cl.pc.LockRow?
    ensures Continues(cl, out.cl) && (out.cl.epoch == cl.epoch || out.cl.epoch == clock)
  {
    var t := cl.w.tid.value;
    if t !in db.transfers then Return(db, cl, if cl.w.call.CallTransfer? then Internal else NotFound)
    else
      var status := db.transfers[t].status;
      var locked := cl.(w := cl.w.(row := Some(db.transfers[t])), epoch := clock);
      if status == Pending then Stay(db, locked.(pc := CountBooked))
      else if cl.w.call.CallTransfer? then
        if status == Settled then Return(db, cl, SuccessOf(external)) else Stay(db, EndTx(cl, MarkFail))
      else if cl.w.call.CallSettle? then
        if status == Failed then Return(db, cl, SettleOnFailed) else Stay(db, locked.(pc := CommitTx))
      else
        if status == Settled then Return(db, cl, FailOnSettled) else Stay(db, locked.(pc := CommitTx))
  }

  function DoCountBooked(db: Db, cl: Client, external: bool): (out: Out)
    requires cl.w.tid.Some?
    ensures Continues(cl, out.cl)
  {
    var n := |EntriesFor(db, cl.w.tid.value)|;
    var counted := cl.(w := cl.w.(count := Some(n)));
    match cl.w.call
    case CallTransfer(_, _, _, _, _) =>
      if n > 0 then Return(db, cl, SuccessOf(external)) else Stay(db, counted.(pc := ReadAcc(0)))
    case CallSettle(_, _) =>
      if n == 0 then Return(db, cl, NotBooked) else Stay(db, counted.(pc := WriteRow))
    case _ =>
      Stay(db, counted.(pc := if n == 0 then WriteRow else LockAcc(0)))
  }

  /** Plain SELECT of an account, and the checks that follow it. */
  function DoReadAcc(db: Db, cl: Client, n: nat): (out: Out)
    ensures Continues(cl, out.cl)
  {
    var a := ReadAt(cl.w, n);
    if cl.w.call.CallMutate? then
      if a !in db.accounts then Return(db, cl, NotFound)
      else if db.accounts[a].status != Active then Return(db, cl, Invalid(false))
      else
        var read := cl.(w := cl.w.(snap := cl.w.snap[a := db.accounts[a]]));
        if NewBalance(read.w, a) < 0 then Return(db, cl, Invalid(false)) else Stay(db, read.(pc := UpdateAcc(0)))
    else
      if a !in db.accounts || db.accounts[a].status != Active then Stay(db, EndTx(cl, MarkFail))
      else
        var read := cl.(w := cl.w.(snap := cl.w.snap[a := db.accounts[a]]));
        if n == 0 then Stay(db, read.(pc := ReadAcc(1)))
        else if SnapBalance(read.w, From(cl.w)) < Amount(cl.w) then Stay(db, EndTx(cl, MarkFail))
        else Stay(db, read.(pc := UpdateAcc(0)))
  }

  /** SELECT of an account FOR UPDATE in a reversal, and the check that follows the second one. */
  function DoLockAcc(db: Db, cl: Client, n: nat): (out: Out)
    ensures Continues(cl, out.cl)
  {
    var a := ReadAt(cl.w, n);
    if a !in db.accounts then Return(db, cl, Internal)
    else
      var read := cl.(w := cl.w.(snap := cl.w.snap[a := db.accounts[a]]));
      if n == 0 then Stay(db, read.(pc := LockAcc(1)))
      else if NewBalance(read.w, To(cl.w)) < 0 then Return(db, cl, Conflicted)
      else Stay(db, read.(pc := UpdateAcc(0)))
  }

  /** An UPDATE that matched no row: roll back and, where the caller retries, try again. */
  function DoConflict(db: Db, cl: Client): (out: Out)
    requires cl.pc.UpdateAcc?
    ensures Continues(cl, out.cl)
  {
    match cl.w.call
    case CallTransfer(_, _, _, _, _) =>
      if cl.attempt + 1 < MAX_RETRIES then Stay(db, EndTx(cl, LockRow).(attempt := cl.attempt + 1))
      else Return(db, cl, Conflicted)
    case CallMutate(_, _, _) =>
      if cl.attempt + 1 < MAX_RETRIES then Stay(db, EndTx(cl, ReadAcc(0)).(attempt := cl.attempt + 1))
      else Return(db, cl, Conflicted)
    case _ => Return(db, cl, VersionConflict)
  }

  /** UPDATE accounts SET balance_cents = $1, version = version + 1 WHERE id = $2 AND version = $3. */
  function DoUpdateAcc(db: Db, cl: Client, n: nat): (out: Out)
    requires cl.pc == UpdateAcc(n)
    ensures Continues(cl, out.cl)
  {
    var a := UpdateAt(cl.w, n);
    if !VersionMatches(db, cl.w, a) then DoConflict(db, cl)
    else if NewBalance(cl.w, a) < 0 then Return(db, cl, Internal)
    else
      Stay(db, cl.(bal := cl.bal[a := NewBalance(cl.w, a)],
                   pc := if n + 1 < Width(cl.w) then UpdateAcc(n + 1) else AddEntry(0)))
  }

  function DoAddEntry(db: Db, cl: Client, n: nat, external: bool): (out: Out)
    ensures Continues(cl, out.cl)
  {
    var next :=
      if n + 1 < Width(cl.w) then AddEntry(n + 1)
      else if cl.w.call.CallMutate? || (cl.w.call.CallTransfer? && external) then CommitTx
      else WriteRow;
    Stay(db, cl.(adds := cl.adds + [NewEntry(cl.w, n)], pc := next))
  }

  /** An empty settlement reference is stored as NULL. */
  function RefArg(ref: string): Option<string> { if ref != "" then Some(ref) else None }

  function RowWriteOf(cl: Client, now: nat): RowWrite {
    match cl.w.call
    case CallTransfer(_, _, _, _, _) => WriteStatus(Settled)
    case CallSettle(_, ref) => WriteSettled(now, RefArg(ref))
    case _ => WriteStatus(Failed)
  }

  function DoWriteRow(db: Db, cl: Client, now: nat): (out: Out)
    ensures Continues(cl, out.cl)
  {
    Stay(db, cl.(write := RowWriteOf(cl, now), pc := CommitTx))
  }

  function WrittenRow(row: Transfer, write: RowWrite): Transfer {
    match write
    case NoWrite => row
    case WriteStatus(status) => row.(status := status)
    case WriteSettled(at, ref) => row.(status := Settled, settledAt := Some(at), ref := ref)
  }

  /** COMMIT: the private writes replace the rows they were made on and join the log, all at once. */
  function Publish(db: Db, cl: Client): Db {
    db.(accounts := map a | a in db.accounts ::
                      if a in cl.bal
                      then db.accounts[a].(balance := cl.bal[a], version := db.accounts[a].version + 1)
                      else db.accounts[a],
        transfers := map t | t in db.transfers ::
                       if cl.w.tid == Some(t) then WrittenRow(db.transfers[t], cl.write) else db.transfers[t],
        entries := db.entries + cl.adds)
  }

  /** The atomic operation that a commit stands for; None when the transaction wrote nothing. */
  function CommittedOp(cl: Client): Option<Op> {
    match cl.w.call
    case CallTransfer(from, to, amount, _, _) =>
      if cl.w.tid.Some? then Some(Book(cl.w.tid.value, from, to, amount, cl.write != NoWrite)) else None
    case CallSettle(_, _) =>
      if cl.w.tid.Some? && cl.write.WriteSettled? then Some(Confirm(cl.w.tid.value, cl.write.at, cl.write.ref))
      else None
    case CallFail(_) =>
      if cl.w.tid.None? || cl.write == NoWrite then None
      else if cl.adds == [] then Some(Void(cl.w.tid.value))
      else Some(Reverse(cl.w.tid.value, From(cl.w), To(cl.w), Amount(cl.w)))
    case CallMutate(a, delta, _) => Some(Mutate(a, delta))
    case _ => None
  }

  function DoCommit(db: Db, cl: Client, external: bool): (out: Out)
    ensures Continues(cl, out.cl)
  {
    var next :=
      match cl.w.call
      case CallTransfer(_, _, _, _, _) => Done(SuccessOf(external))
      case CallMutate(_, _, _) => Done(Completed)
      case _ => Fetch;
    Out(Publish(db, cl), EndTx(cl, next), CommittedOp(cl))
  }

  /** markFailed: UPDATE transfers SET status = 'FAILED' WHERE id = $1, whatever the status is by now. */
  function DoMarkFail(db: Db, cl: Client): (out: Out)
    requires cl.w.tid.Some?
    ensures Continues(cl, out.cl)
  {
    var t := cl.w.tid.value;
    if t in db.transfers then
      Out(SetTransferStatus(db, t, Failed), EndTx(cl, Done(Invalid(true))), Some(MarkFailed(t)))
    else Stay(db, EndTx(cl, Done(Invalid(true))))
  }

  function DoFetch(db: Db, cl: Client): (out: Out)
    requires cl.w.tid.Some?
    ensures Continues(cl, out.cl)
  {
    Return(db, cl, if cl.w.tid.value in db.transfers then Completed else NotFound)
  }

  function DoOpen(db: Db, cl: Client, newId: Id): (out: Out)
    ensures Continues(cl, out.cl)
  {
    Out(db.(accounts := db.accounts[newId := Account(0, 0, Active)], issued := db.issued + {newId}),
        EndTx(cl, Done(Completed)), Some(Open(newId)))
  }

  /** UPDATE accounts SET status = $1 WHERE id = $2; the version stays. */
  function DoSetStatus(db: Db, cl: Client): (out: Out)
    requires cl.w.call.CallSetStatus?
    ensures Continues(cl, out.cl)
  {
    var a := cl.w.call.account;
    if a !in db.accounts then Return(db, cl, NotFound)
    else
      Out(db.(accounts := db.accounts[a := db.accounts[a].(status := cl.w.call.status)]),
          EndTx(cl, Done(Completed)), Some(SetStatus(a, cl.w.call.status)))
  }

  /** TRUNCATE transfers, entries, accounts, and COMMIT. */
  function DoTruncate(db: Db, cl: Client): (out: Out)
    ensures Continues(cl, out.cl)
  {
    Out(db.(accounts := map[], transfers := map[], entries := []), EndTx(cl, Done(Completed)), Some(Truncate))
  }

  /** A client whose program counter fits its call, so that the statement at hand is defined. */
  predicate Typed(cl: Client) {
    match cl.pc
    case Insert => cl.w.call.CallTransfer?
    case Find => cl.w.call.CallTransfer?
    case Validate => cl.w.call.CallTransfer?
    case LockRow => cl.w.tid.Some? && (cl.w.call.CallTransfer? || cl.w.call.CallSettle? || cl.w.call.CallFail?)
    case CountBooked => cl.w.tid.Some? && (cl.w.call.CallTransfer? || cl.w.call.CallSettle? || cl.w.call.CallFail?)
    case MarkFail => cl.w.tid.Some? && cl.w.call.CallTransfer?
    case Fetch => cl.w.tid.Some? && (cl.w.call.CallSettle? || cl.w.call.CallFail?)
    case WriteAccStatus => cl.w.call.CallSetStatus?
    case _ => true
  }

  /** The statement at the client's program counter. */
  ghost function DoStatement(db: Db, cl: Client, newId: Id, now: nat, clock: nat, external: bool): (out: Out)
    requires Typed(cl)
    ensures Continues(cl, out.cl) && (out.cl.epoch == cl.epoch || out.cl.epoch == clock)
  {
    match cl.pc
    case Validate => DoValidate(db, cl)
    case Insert => DoInsert(db, cl, newId, now)
    case Find => DoFind(db, cl)
    case LockRow => DoLockRow(db, cl, clock, external)
    case CountBooked => DoCountBooked(db, cl, external)
    case ReadAcc(n) => DoReadAcc(db, cl, n)
    case LockAcc(n) => DoLockAcc(db, cl, n)
    case UpdateAcc(n) => DoUpdateAcc(db, cl, n)
    case AddEntry(n) => DoAddEntry(db, cl, n, external)
    case WriteRow => DoWriteRow(db, cl, now)
    case CommitTx => DoCommit(db, cl, external)
    case MarkFail => DoMarkFail(db, cl)
    case Fetch => DoFetch(db, cl)
    case OpenAcc => DoOpen(db, cl, newId)
    case WriteAccStatus => DoSetStatus(db, cl)
    case LockTables => Stay(db, cl.(pc := TruncateAll))
    case TruncateAll => DoTruncate(db, cl)
    case Done(_) => Stay(db, cl)
  }

  /** The statement fails in the database and the transaction is rolled back. markFailed ignores its error. */
  function Aborted(cl: Client): Client {
    EndTx(cl, Done(if cl.pc == MarkFail then Invalid(true) else Internal))
  }

  /** LOCK TABLE gave up (deadlock or lock timeout): the reset is repeated from the start, three attempts in all. */
  function LockFailed(cl: Client): Client {
    if cl.attempt + 1 < MAX_RETRIES then EndTx(cl, LockTables).(attempt := cl.attempt + 1)
    else EndTx(cl, Done(Internal))
  }

  // -------------------------------------------------------------------------------------------------- the system

  /** history, clashed, begun and epoch only record what happened: no statement reads them. */
  datatype State = State(db: Db, history: seq<Commit>, clients: map<nat, Client>, external: bool)

  datatype Event =
    | Begin(client: nat, call: Call)
    | Acquire(client: nat)
    | Do(client: nat, newId: Id, now: nat)
    | Abort(client: nat)
    | LockFail(client: nat)

  function Init(external: bool): State { State(EMPTY_DB, [], map[], external) }

  predicate Free(s: State, c: nat, l: Lock) {
    forall d, m :: d in s.clients && d != c && m in s.clients[d].held ==> !Conflict(l, m)
  }

  predicate Enabled(s: State, e: Event) {
    match e
    case Begin(c, call) => c !in s.clients && CallOk(call)
    case Acquire(c) =>
      c in s.clients && var next := NextLock(s.db, s.clients[c]); next.Some? && Free(s, c, next.value)
    case Do(c, newId, _) =>
      && c in s.clients && Typed(s.clients[c]) && !s.clients[c].pc.Done?
      && NextLock(s.db, s.clients[c]) == None && newId !in s.db.issued
    case Abort(c) => c in s.clients && !s.clients[c].pc.Done? && s.clients[c].pc != Validate
    case LockFail(c) => c in s.clients && s.clients[c].pc == LockTables
  }

  predicate Unfinished(s: State, c: nat) { c in s.clients && !s.clients[c].pc.Done? }

  function Put(s: State, c: nat, cl: Client): State { s.(clients := s.clients[c := cl]) }

  function Settle(s: State, c: nat, out: Out): State {
    s.(db := out.db, clients := s.clients[c := out.cl],
       history := if out.log.Some? then s.history + [Commit(c, out.log.value)] else s.history)
  }

  ghost function Apply(s: State, e: Event): State
    requires Enabled(s, e)
  {
    match e
    case Begin(c, call) => Put(s, c, StartOf(call, |s.history|))
    case Acquire(c) =>
      var cl := s.clients[c];
      Put(s, c, cl.(held := cl.held + {NextLock(s.db, cl).value}))
    case Do(c, newId, now) => Settle(s, c, DoStatement(s.db, s.clients[c], newId, now, |s.history|, s.external))
    case Abort(c) => Put(s, c, Aborted(s.clients[c]))
    case LockFail(c) => Put(s, c, LockFailed(s.clients[c]))
  }

  /** A run from the empty bank: every event is enabled where it happens. */
  ghost predicate ValidRun(external: bool, es: seq<Event>) {
    es == [] || (ValidRun(external, es[..|es| - 1]) && Enabled(StateAfter(external, es[..|es| - 1]), es[|es| - 1]))
  }

  ghost function StateAfter(external: bool, es: seq<Event>): State {
    if es == [] then Init(external)
    else
      var s := StateAfter(external, es[..|es| - 1]);
      if Enabled(s, es[|es| - 1]) then Apply(s, es[|es| - 1]) else s
  }
}
