/** What every call of the services does to the tables and what it answers when nobody disturbs it, told from the tables
    alone, with no statements, locks, snapshots or retries: a second, independent account of
    internal/transfer/transfer.go, internal/account/account.go and the reset. */
module Replies {
  import opened Common
  import opened Ledger
  import opened Bank
  import opened Protocol

  /** The tables that a call leaves, and its answer. */
  datatype Reply = Reply(db: Db, result: Result)

  function WithRow(db: Db, t: Id, row: Transfer): Db {
    Db(db.accounts, db.transfers[t := row], db.entries, db.issued)
  }

  function WithBalance(db: Db, a: Id, balance: int): Db
    requires a in db.accounts
  {
    Db(db.accounts[a := Account(balance, db.accounts[a].version + 1, db.accounts[a].status)],
       db.transfers, db.entries, db.issued)
  }

  function WithEntries(db: Db, more: seq<Entry>): Db {
    Db(db.accounts, db.transfers, db.entries + more, db.issued)
  }

  /** The row with another status. */
  function InStatus(row: Transfer, status: TransferStatus): Transfer {
    Transfer(row.from, row.to, row.amount, row.key, status, row.settledAt, row.ref, row.createdAt)
  }

  predicate IsActive(db: Db, a: Id) { a in db.accounts && db.accounts[a].status == Active }

  // ----------------------------------------------------------------------------------------------- settlement

  /** A booked PENDING transfer is SETTLED now, with its reference unless that is empty; a SETTLED one stays. */
  function SettleReply(db: Db, t: Id, ref: string, now: nat): Reply {
    if t !in db.transfers then Reply(db, NotFound)
    else
      var row := db.transfers[t];
      match row.status
      case Failed => Reply(db, SettleOnFailed)
      case Settled => Reply(db, Completed)
      case Pending =>
        if !HasEntries(db, t) then Reply(db, NotBooked)
        else
          var settled := Transfer(row.from, row.to, row.amount, row.key, Settled, Some(now),
                                  if ref == "" then None else Some(ref), row.createdAt);
          Reply(WithRow(db, t, settled), Completed)
  }

  /** A PENDING transfer is FAILED: at once if it is unbooked, and otherwise with its booking undone, unless its
      destination has spent the money. A FAILED one stays. */
  function FailReply(db: Db, t: Id): Reply {
    if t !in db.transfers then Reply(db, NotFound)
    else
      var row := db.transfers[t];
      match row.status
      case Settled => Reply(db, FailOnSettled)
      case Failed => Reply(db, Completed)
      case Pending =>
        if !HasEntries(db, t) then Reply(WithRow(db, t, InStatus(row, Failed)), Completed) else ReverseReply(db, t, row)
  }

  function ReverseReply(db: Db, t: Id, row: Transfer): Reply {
    if row.from !in db.accounts || row.to !in db.accounts || row.from == row.to then Reply(db, Internal)
    else if db.accounts[row.to].balance < row.amount then Reply(db, Conflicted)
    else if db.accounts[row.from].balance + row.amount > MAX_INT64 then Reply(db, Internal)
    else
      var back, rest := db.accounts[row.from].balance + row.amount, db.accounts[row.to].balance - row.amount;
      var entries := [Entry(row.from, Credit, row.amount, back, Some(t)),
                      Entry(row.to, Debit, row.amount, rest, Some(t))];
      var moved := WithBalance(WithBalance(db, row.from, back), row.to, rest);
      Reply(WithEntries(WithRow(moved, t, InStatus(row, Failed)), entries), Completed)
  }

  // --------------------------------------------------------------------------------------------------- transfers

  /** The row is booked, unless it is already; if it cannot be, it is FAILED. */
  function BookReply(external: bool, db: Db, t: Id): Reply {
    if t !in db.transfers then Reply(db, Internal)
    else
      var row := db.transfers[t];
      var done := Accepted(if external then Pending else Settled);
      if row.status == Settled then Reply(db, done)
      else if row.status == Failed then FailedReply(db, t)
      else if HasEntries(db, t) then Reply(db, done)
      else if !IsActive(db, row.from) || !IsActive(db, row.to) || db.accounts[row.from].balance < row.amount
      then FailedReply(db, t)
      else if db.accounts[row.to].balance + row.amount > MAX_INT64 || row.from == row.to then Reply(db, Internal)
      else
        var left, more := db.accounts[row.from].balance - row.amount, db.accounts[row.to].balance + row.amount;
        var entries := [Entry(row.from, Debit, row.amount, left, Some(t)),
                        Entry(row.to, Credit, row.amount, more, Some(t))];
        var moved := WithEntries(WithBalance(WithBalance(db, row.from, left), row.to, more), entries);
        Reply(if external then moved else WithRow(moved, t, InStatus(row, Settled)), done)
  }

  /** markFailed. */
  function FailedReply(db: Db, t: Id): Reply {
    Reply(if t in db.transfers then WithRow(db, t, InStatus(db.transfers[t], Failed)) else db, Invalid(true))
  }

  /** The key is in use by transfer t. */
  function RepeatReply(external: bool, db: Db, call: Call, t: Id): Reply
    requires call.CallTransfer? && t in db.transfers
  {
    var row := db.transfers[t];
    if row.from != call.from || row.to != call.to || row.amount != call.amount then Reply(db, Conflicted)
    else if row.status == Settled then Reply(db, Accepted(Settled))
    else if row.status == Failed then Reply(db, Invalid(true))
    else BookReply(external, db, t)
  }

  predicate InUse(db: Db, key: string) { exists t :: t in db.transfers && db.transfers[t].key == key }

  ghost function Holder(db: Db, key: string): (t: Id)
    requires InUse(db, key)
    ensures t in db.transfers && db.transfers[t].key == key
  {
    var t :| t in db.transfers && db.transfers[t].key == key;
    t
  }

  /** A new row, or that of the key, is booked. */
  ghost function TransferReply(external: bool, db: Db, call: Call, id: Id, now: nat): Reply
    requires call.CallTransfer?
  {
    if call.key == "" || call.from == call.to || call.amount <= 0 then Reply(db, Invalid(false))
    else InsertReply(external, db, call, id, now)
  }

  ghost function InsertReply(external: bool, db: Db, call: Call, id: Id, now: nat): Reply
    requires call.CallTransfer?
  {
    if InUse(db, call.key) then RepeatReply(external, db, call, Holder(db, call.key))
    else if call.from !in db.accounts || call.to !in db.accounts then Reply(db, Internal)
    else
      var row := Transfer(call.from, call.to, call.amount, call.key, Pending, None, None, now);
      BookReply(external, Db(db.accounts, db.transfers[id := row], db.entries, db.issued + {id}), id)
  }

  // ---------------------------------------------------------------------------------------------------- accounts

  /** A deposit or withdrawal: of an ACTIVE account that can hold the result. */
  function MutateReply(db: Db, a: Id, delta: int, typ: EntryType): Reply {
    if a !in db.accounts then Reply(db, NotFound)
    else
      var balance := db.accounts[a].balance + delta;
      if db.accounts[a].status != Active || balance < 0 || balance > MAX_INT64 then Reply(db, Invalid(false))
      else
        var entry := Entry(a, typ, if delta < 0 then -delta else delta, balance, None);
        Reply(WithEntries(WithBalance(db, a, balance), [entry]), Completed)
  }

  function StatusReply(db: Db, a: Id, status: AccountStatus): Reply {
    if a !in db.accounts then Reply(db, NotFound)
    else
      var acc := Account(db.accounts[a].balance, db.accounts[a].version, status);
      Reply(Db(db.accounts[a := acc], db.transfers, db.entries, db.issued), Completed)
  }

  /** Any call. id and now are the identifier and the time that the database hands out, if it is asked for them. */
  ghost function ReplyTo(external: bool, db: Db, call: Call, id: Id, now: nat): Reply {
    match call
    case CallTransfer(_, _, _, _, _) => TransferReply(external, db, call, id, now)
    case CallSettle(t, ref) => SettleReply(db, t, ref, now)
    case CallFail(t) => FailReply(db, t)
    case CallMutate(a, delta, typ) => MutateReply(db, a, delta, typ)
    case CallOpen =>
      Reply(Db(db.accounts[id := Account(0, 0, Active)], db.transfers, db.entries, db.issued + {id}), Completed)
    case CallSetStatus(a, status) => StatusReply(db, a, status)
    case CallReset => Reply(Db(map[], map[], [], db.issued), Completed)
  }
}
