/** The bank as it would be with no concurrency: tables, and operations that each happen at once.
    The concurrent protocol is proved to commit nothing but these operations. */
module Bank {
  import opened Common
  import opened Ledger

  datatype AccountStatus = Active | Blocked

  datatype Account = Account(balance: int, version: nat, status: AccountStatus)

  datatype TransferStatus = Pending | Settled | Failed

  /** A row of the transfers table. Times are opaque, totally ordered instants. */
  datatype Transfer = Transfer(from: Id, to: Id, amount: int, key: string, status: TransferStatus,
                               settledAt: Option<nat>, ref: Option<string>, createdAt: nat)

  /** The committed tables, and every identifier handed out so far: gen_random_uuid never repeats one. */
  datatype Db = Db(accounts: map<Id, Account>, transfers: map<Id, Transfer>, entries: seq<Entry>, issued: set<Id>)

  const EMPTY_DB := Db(map[], map[], [], {})

  datatype Op =
    | Open(id: Id)
    | Create(tid: Id, row: Transfer)
    | Book(tid: Id, from: Id, to: Id, amount: int, settles: bool)
    | Reverse(tid: Id, from: Id, to: Id, amount: int)
    | Void(tid: Id)
    | Confirm(tid: Id, at: nat, ref: Option<string>)
    | MarkFailed(tid: Id)
    | Mutate(account: Id, delta: int)
    | SetStatus(account: Id, status: AccountStatus)
    | Truncate

  /** The entries of a transfer, in append order. */
  function EntriesFor(db: Db, t: Id): seq<Entry> { Select(db.entries, OfTransfer(t)) }

  /** EXISTS (SELECT 1 FROM entries WHERE transfer_id = t). */
  predicate Booked(db: Db, t: Id) { EntriesFor(db, t) != [] }

  /** Some entry of the log names the transfer. */
  predicate HasEntries(db: Db, t: Id) { exists i :: 0 <= i < |db.entries| && db.entries[i].transfer == Some(t) }

  lemma BookedHasEntries(db: Db, t: Id)
    ensures Booked(db, t) <==> HasEntries(db, t)
  {
    var es := EntriesFor(db, t);
    SelectedComesFromLog(db.entries, OfTransfer(t));
    if es != [] {
      assert es[0] in db.entries && Picks(OfTransfer(t), es[0]);
      var i :| 0 <= i < |db.entries| && db.entries[i] == es[0];
    }
    if i :| 0 <= i < |db.entries| && db.entries[i].transfer == Some(t) {
      assert db.entries[i] in es;
    }
  }

  /** The entries of an account, in append order. */
  function Statement(db: Db, a: Id): seq<Entry> { Select(db.entries, OfAccount(a)) }

  predicate ValidAmount(amount: int) { 0 < amount <= MAX_INT64 }

  predicate NewRow(row: Transfer) {
    row.from != row.to && ValidAmount(row.amount) && row.status == Pending && row.settledAt == None && row.ref == None
  }

  predicate RowIs(db: Db, t: Id, from: Id, to: Id, amount: int) {
    && t in db.transfers
    && db.transfers[t].from == from && db.transfers[t].to == to && db.transfers[t].amount == amount
  }

  predicate CanPost(db: Db, a: Id, delta: int) {
    a in db.accounts && 0 <= db.accounts[a].balance + delta <= MAX_INT64
  }

  /** What an operation needs of the bank at the moment it takes effect. */
  predicate Guard(db: Db, op: Op) {
    match op
    case Open(a) => a !in db.issued
    case Create(t, row) =>
      && t !in db.issued && NewRow(row)
      && row.from in db.accounts && row.to in db.accounts
      && (forall u :: u in db.transfers ==> db.transfers[u].key != row.key)
    case Book(t, from, to, amount, _) =>
      && RowIs(db, t, from, to, amount) && db.transfers[t].status == Pending && !Booked(db, t)
      && CanPost(db, from, -amount) && CanPost(db, to, amount)
    case Reverse(t, from, to, amount) =>
      && RowIs(db, t, from, to, amount) && db.transfers[t].status == Pending && Booked(db, t)
      && CanPost(db, from, amount) && CanPost(db, to, -amount)
    case Void(t) => t in db.transfers && db.transfers[t].status == Pending && !Booked(db, t)
    case Confirm(t, _, _) => t in db.transfers && db.transfers[t].status == Pending && Booked(db, t)
    case MarkFailed(t) => t in db.transfers
    case Mutate(a, delta) => delta != 0 && IsInt64(delta) && delta != MIN_INT64 && CanPost(db, a, delta)
    case SetStatus(a, _) => a in db.accounts
    case Truncate => true
  }

  /** One posting: the balance moves, the version counts it, the log records it. */
  function Post(db: Db, a: Id, delta: int, transfer: Option<Id>): Db
    requires CanPost(db, a, delta)
  {
    var balance := db.accounts[a].balance + delta;
    var entry := Entry(a, if delta > 0 then Credit else Debit, if delta > 0 then delta else -delta, balance, transfer);
    db.(accounts := db.accounts[a := db.accounts[a].(balance := balance, version := db.accounts[a].version + 1)],
        entries := db.entries + [entry])
  }

  /** Two postings on different accounts, one after the other. */
  function Post2(db: Db, a: Id, da: int, b: Id, dbl: int, t: Id): Db
    requires a != b && CanPost(db, a, da) && CanPost(db, b, dbl)
  {
    Post(Post(db, a, da, Some(t)), b, dbl, Some(t))
  }

  function SetRow(db: Db, t: Id, row: Transfer): Db {
    db.(transfers := db.transfers[t := row])
  }

  function SetTransferStatus(db: Db, t: Id, status: TransferStatus): Db
    requires t in db.transfers
  {
    SetRow(db, t, db.transfers[t].(status := status))
  }

  function Exec(db: Db, op: Op): Db
    requires Guard(db, op) && RowsOk(db)
  {
    match op
    case Open(a) => db.(accounts := db.accounts[a := Account(0, 0, Active)], issued := db.issued + {a})
    case Create(t, row) => SetRow(db, t, row).(issued := db.issued + {t})
    case Book(t, from, to, amount, settles) =>
      var posted := Post2(db, from, -amount, to, amount, t);
      if settles then SetTransferStatus(posted, t, Settled) else posted
    case Reverse(t, from, to, amount) =>
      SetTransferStatus(Post2(db, from, amount, to, -amount, t), t, Failed)
    case Void(t) => SetTransferStatus(db, t, Failed)
    case Confirm(t, at, ref) =>
      SetRow(db, t, db.transfers[t].(status := Settled, settledAt := Some(at), ref := ref))
    case MarkFailed(t) => SetTransferStatus(db, t, Failed)
    case Mutate(a, delta) => Post(db, a, delta, None)
    case SetStatus(a, status) => db.(accounts := db.accounts[a := db.accounts[a].(status := status)])
    case Truncate => db.(accounts := map[], transfers := map[], entries := [])
  }

  // ---------------------------------------------------------------- what every state of the bank satisfies

  predicate RowOk(db: Db, t: Id)
    requires t in db.transfers
  {
    var row := db.transfers[t];
    row.from != row.to && row.from in db.accounts && row.to in db.accounts && ValidAmount(row.amount)
  }

  predicate RowsOk(db: Db) {
    forall t :: t in db.transfers ==> RowOk(db, t)
  }

  /** Version counts entries, every entry states the running sum, and the balance is the last of these sums. */
  ghost predicate AccountOk(db: Db, a: Id)
    requires a in db.accounts
  {
    var acc, log := db.accounts[a], Statement(db, a);
    acc.version == |log| && Running(log) && acc.balance == Net(log) && 0 <= acc.balance <= MAX_INT64
  }

  ghost predicate AccountsOk(db: Db) {
    forall a :: a in db.accounts ==> AccountOk(db, a)
  }

  predicate EntryOk(db: Db, e: Entry) {
    e.account in db.accounts && ValidAmount(e.amount) && (e.transfer.Some? ==> e.transfer.value in db.transfers)
  }

  ghost predicate EntriesOk(db: Db) {
    forall i :: 0 <= i < |db.entries| ==> EntryOk(db, db.entries[i])
  }

  ghost predicate KeysUnique(db: Db) {
    forall t, u :: t in db.transfers && u in db.transfers && db.transfers[t].key == db.transfers[u].key ==> t == u
  }

  ghost predicate IdsIssued(db: Db) {
    db.accounts.Keys <= db.issued && db.transfers.Keys <= db.issued
  }

  predicate IsLeg(e: Entry, account: Id, typ: EntryType, amount: int) {
    e.account == account && e.typ == typ && e.amount == amount
  }

  /** Debit at the origin, credit at the destination; a reversal posts the same pair back. */
  predicate Legs(row: Transfer, es: seq<Entry>) {
    && (|es| == 0 || |es| == 2 || |es| == 4)
    && (|es| >= 2 ==> IsLeg(es[0], row.from, Debit, row.amount) && IsLeg(es[1], row.to, Credit, row.amount))
    && (|es| == 4 ==> IsLeg(es[2], row.from, Credit, row.amount) && IsLeg(es[3], row.to, Debit, row.amount))
  }

  /** A transfer has 0, 2 or 4 entries of the right accounts, types and amount; four mean FAILED,
      SETTLED means exactly two, and only a booked transfer was ever confirmed. */
  predicate BookingOk(db: Db, t: Id)
    requires t in db.transfers
  {
    var row, es := db.transfers[t], EntriesFor(db, t);
    && Legs(row, es)
    && (|es| == 4 ==> row.status == Failed)
    && (row.status == Settled ==> |es| == 2)
    && (row.settledAt.Some? ==> row.status != Pending && |es| == 2)
    && (row.settledAt == None ==> row.ref == None)
  }

  ghost predicate BookingsOk(db: Db) {
    forall t :: t in db.transfers ==> BookingOk(db, t)
  }

  ghost predicate DbInv(db: Db) {
    RowsOk(db) && AccountsOk(db) && EntriesOk(db) && KeysUnique(db) && IdsIssued(db) && BookingsOk(db)
  }
}
