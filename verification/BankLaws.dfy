/** Every operation of the atomic bank keeps DbInv, one part of the invariant at a time. */
module BankLaws {
  import opened Common
  import opened Ledger
  import opened Bank

  // ------------------------------------------------------------------------------------------ one posting

  predicate Postable(db: Db, a: Id, delta: int, transfer: Option<Id>) {
    && CanPost(db, a, delta) && delta != 0 && -MAX_INT64 <= delta <= MAX_INT64
    && (transfer.Some? ==> transfer.value in db.transfers)
  }

  /** The entry that a posting appends. */
  function Posting(db: Db, a: Id, delta: int, transfer: Option<Id>): Entry
    requires CanPost(db, a, delta)
  {
    var db' := Post(db, a, delta, transfer);
    db'.entries[|db.entries|]
  }

  lemma PostKeepsAccount(db: Db, a: Id, delta: int, transfer: Option<Id>, b: Id)
    requires Postable(db, a, delta, transfer) && b in db.accounts && AccountOk(db, b)
    ensures AccountOk(Post(db, a, delta, transfer), b)
  {
    hide Select, Net, Running;
    var db' := Post(db, a, delta, transfer);
    var e := Posting(db, a, delta, transfer);
    var log := Statement(db, b);
    SelectAppend(db.entries, e, OfAccount(b));
    if a == b {
      NetAppend(log, e);
      RunningAppend(log, e);
      assert Statement(db', b) == log + [e];
    } else {
      assert Statement(db', b) == log;
    }
  }

  lemma PostKeepsAccounts(db: Db, a: Id, delta: int, transfer: Option<Id>)
    requires AccountsOk(db) && Postable(db, a, delta, transfer)
    ensures AccountsOk(Post(db, a, delta, transfer))
  {
    var db' := Post(db, a, delta, transfer);
    forall b | b in db'.accounts ensures AccountOk(db', b) {
      hide AccountOk;
      PostKeepsAccount(db, a, delta, transfer, b);
    }
  }

  lemma PostKeepsEntries(db: Db, a: Id, delta: int, transfer: Option<Id>)
    requires EntriesOk(db) && Postable(db, a, delta, transfer)
    ensures EntriesOk(Post(db, a, delta, transfer))
  {
    var db' := Post(db, a, delta, transfer);
    forall i | 0 <= i < |db'.entries| ensures EntryOk(db', db'.entries[i]) {
      if i < |db.entries| { assert EntryOk(db, db.entries[i]); }
    }
  }

  /** The two postings of a transfer: what they leave in the tables and in every transfer's entries. */
  lemma Post2Effect(db: Db, a: Id, da: int, b: Id, dbl: int, t: Id, u: Id)
    requires a != b && Postable(db, a, da, Some(t)) && Postable(db, b, dbl, Some(t))
    ensures var db' := Post2(db, a, da, b, dbl, t);
            && db'.transfers == db.transfers && db'.issued == db.issued
            && db'.accounts.Keys == db.accounts.Keys
            && EntriesFor(db', u) == EntriesFor(db, u)
               + if t == u then [Posting(db, a, da, Some(t)), Posting(db, b, dbl, Some(t))] else []
  {
    var mid := Post(db, a, da, Some(t));
    SelectAppend(db.entries, Posting(db, a, da, Some(t)), OfTransfer(u));
    SelectAppend(mid.entries, Posting(db, b, dbl, Some(t)), OfTransfer(u));
    assert Posting(mid, b, dbl, Some(t)) == Posting(db, b, dbl, Some(t));
  }

  lemma Post2KeepsLedger(db: Db, a: Id, da: int, b: Id, dbl: int, t: Id)
    requires AccountsOk(db) && EntriesOk(db)
    requires a != b && Postable(db, a, da, Some(t)) && Postable(db, b, dbl, Some(t))
    ensures var db' := Post2(db, a, da, b, dbl, t); AccountsOk(db') && EntriesOk(db')
  {
    PostKeepsAccounts(db, a, da, Some(t));
    PostKeepsEntries(db, a, da, Some(t));
    var mid := Post(db, a, da, Some(t));
    PostKeepsAccounts(mid, b, dbl, Some(t));
    PostKeepsEntries(mid, b, dbl, Some(t));
  }

  // ------------------------------------------------------------------------------- accounts and entries

  /** AccountsOk looks at the accounts' numbers and the log only. */
  lemma AccountsFrame(db: Db, db': Db)
    requires AccountsOk(db) && db'.entries == db.entries
    requires forall a :: a in db'.accounts ==>
               a in db.accounts && db'.accounts[a].balance == db.accounts[a].balance
               && db'.accounts[a].version == db.accounts[a].version
    ensures AccountsOk(db')
  {
    forall a | a in db'.accounts ensures AccountOk(db', a) {
      assert AccountOk(db, a);
    }
  }

  lemma EntriesFrame(db: Db, db': Db)
    requires EntriesOk(db) && db'.entries == db.entries
    requires db.accounts.Keys <= db'.accounts.Keys && db.transfers.Keys <= db'.transfers.Keys
    ensures EntriesOk(db')
  {
    forall i | 0 <= i < |db'.entries| ensures EntryOk(db', db'.entries[i]) {
      assert EntryOk(db, db.entries[i]);
    }
  }

  /** Nothing was ever logged for an account or a transfer that does not exist yet. */
  lemma {:induction false} UnknownHasNoEntries(db: Db, sel: Selector)
    requires EntriesOk(db)
    requires match sel case OfAccount(a) => a !in db.accounts case OfTransfer(t) => t !in db.transfers
    ensures Select(db.entries, sel) == []
  {
    forall i | 0 <= i < |db.entries| ensures !Picks(sel, db.entries[i]) {
      assert EntryOk(db, db.entries[i]);
    }
    NonePicked(db.entries, sel);
  }

  lemma OpenKeepsAccounts(db: Db, op: Op)
    requires DbInv(db) && op.Open? && Guard(db, op)
    ensures AccountsOk(Exec(db, op))
  {
    var db' := Exec(db, op);
    UnknownHasNoEntries(db, OfAccount(op.id));
    forall a | a in db'.accounts ensures AccountOk(db', a) {
      if a != op.id { assert AccountOk(db, a); }
    }
  }

  lemma LedgerPostingOps(db: Db, op: Op)
    requires DbInv(db) && Guard(db, op) && (op.Book? || op.Reverse? || op.Mutate?)
    ensures AccountsOk(Exec(db, op)) && EntriesOk(Exec(db, op))
  {
    hide RowsOk, BookingsOk, KeysUnique, IdsIssued, AccountsOk, EntriesOk, Post2, Booked, CanPost, Exec, Guard;
    if op.Mutate? {
      LedgerMutate(db, op.account, op.delta);
    } else {
      var da := if op.Book? then -op.amount else op.amount;
      PostsTwice(db, op, da);
      Post2KeepsLedger(db, op.from, da, op.to, -da, op.tid);
      var mid := Post2(db, op.from, da, op.to, -da, op.tid);
      AccountsFrame(mid, Exec(db, op));
      EntriesFrame(mid, Exec(db, op));
    }
  }

  lemma LedgerMutate(db: Db, a: Id, delta: int)
    requires DbInv(db) && Guard(db, Mutate(a, delta))
    ensures AccountsOk(Exec(db, Mutate(a, delta))) && EntriesOk(Exec(db, Mutate(a, delta)))
  {
    PostKeepsAccounts(db, a, delta, None);
    PostKeepsEntries(db, a, delta, None);
    hide DbInv, AccountsOk, EntriesOk, Post;
  }

  /** A booking or reversal is two postings, and a status. */
  lemma PostsTwice(db: Db, op: Op, da: int)
    requires RowsOk(db) && Guard(db, op) && (op.Book? || op.Reverse?)
    requires da == if op.Book? then -op.amount else op.amount
    ensures op.from != op.to && Postable(db, op.from, da, Some(op.tid)) && Postable(db, op.to, -da, Some(op.tid))
    ensures var mid, db' := Post2(db, op.from, da, op.to, -da, op.tid), Exec(db, op);
            db'.accounts == mid.accounts && db'.entries == mid.entries && db'.transfers.Keys == mid.transfers.Keys
  {
    assert RowOk(db, op.tid);
    hide RowsOk, Booked;
  }

  lemma ExecKeepsLedger(db: Db, op: Op)
    requires DbInv(db) && Guard(db, op)
    ensures AccountsOk(Exec(db, op)) && EntriesOk(Exec(db, op))
  {
    if op.Book? || op.Reverse? || op.Mutate? {
      LedgerPostingOps(db, op);
    } else if op.Open? {
      OpenKeepsAccounts(db, op);
      EntriesFrame(db, Exec(db, op));
    } else if !op.Truncate? {
      AccountsFrame(db, Exec(db, op));
      EntriesFrame(db, Exec(db, op));
    }
  }

  // --------------------------------------------------------------------------------- rows, keys, identifiers

  /** The parameters a row is created with. */
  predicate SameTransfer(before: Transfer, after: Transfer) {
    && after.from == before.from && after.to == before.to && after.amount == before.amount
    && after.key == before.key && after.createdAt == before.createdAt
  }

  /** Exec keeps the parameters of every row, and adds no account or transfer but the one it names. */
  ghost predicate RowsFrame(db: Db, db': Db, newAccounts: set<Id>, newTransfers: set<Id>) {
    && db'.accounts.Keys == db.accounts.Keys + newAccounts
    && db'.transfers.Keys == db.transfers.Keys + newTransfers
    && (forall t :: t in db.transfers && t in db'.transfers ==> SameTransfer(db.transfers[t], db'.transfers[t]))
  }

  lemma ExecRows(db: Db, op: Op)
    requires RowsOk(db) && IdsIssued(db) && Guard(db, op) && !op.Truncate?
    ensures RowsFrame(db, Exec(db, op), if op.Open? then {op.id} else {}, if op.Create? then {op.tid} else {})
  {
    if op.Book? || op.Reverse? { assert RowOk(db, op.tid); }
  }

  lemma ExecKeepsRows(db: Db, op: Op)
    requires RowsOk(db) && IdsIssued(db) && Guard(db, op)
    ensures RowsOk(Exec(db, op))
  {
    if !op.Truncate? {
      var db' := Exec(db, op);
      ExecRows(db, op);
      assert op.Create? ==> db'.transfers[op.tid] == op.row;
      hide Exec, Booked;
      forall t | t in db'.transfers ensures RowOk(db', t) {
        if t in db.transfers { assert RowOk(db, t); }
      }
    }
  }

  lemma ExecKeepsKeys(db: Db, op: Op)
    requires RowsOk(db) && IdsIssued(db) && KeysUnique(db) && Guard(db, op)
    ensures KeysUnique(Exec(db, op))
  {
    if !op.Truncate? {
      var db' := Exec(db, op);
      ExecRows(db, op);
      assert op.Create? ==> db'.transfers[op.tid] == op.row;
      hide Exec, Booked, RowsOk;
    }
  }

  lemma ExecIssued(db: Db, op: Op)
    requires RowsOk(db) && IdsIssued(db) && Guard(db, op)
    ensures db.issued <= Exec(db, op).issued
    ensures IdsIssued(Exec(db, op))
  {
    var db' := Exec(db, op);
    if op.Book? || op.Reverse? { assert RowOk(db, op.tid); }
    assert db'.issued == db.issued + (if op.Open? then {op.id} else if op.Create? then {op.tid} else {});
    if !op.Truncate? {
      ExecRows(db, op);
      hide Exec, Guard, RowsOk;
    }
  }

  // ------------------------------------------------------------------------------------------------ bookings

  /** The transfer whose row or entries an operation may change. */
  predicate Concerns(op: Op, t: Id) {
    match op
    case Create(u, _) => u == t
    case Book(u, _, _, _, _) => u == t
    case Reverse(u, _, _, _) => u == t
    case Void(u) => u == t
    case Confirm(u, _, _) => u == t
    case MarkFailed(u) => u == t
    case Truncate => true
    case _ => false
  }

  lemma ExecOtherTransfer(db: Db, op: Op, t: Id)
    requires RowsOk(db) && Guard(db, op) && !Concerns(op, t)
    ensures var db' := Exec(db, op);
            && EntriesFor(db', t) == EntriesFor(db, t)
            && (t in db'.transfers <==> t in db.transfers)
            && (t in db.transfers ==> db'.transfers[t] == db.transfers[t])
  {
    match op {
      case Book(u, from, to, amount, _) =>
        assert RowOk(db, u);
        Post2Effect(db, from, -amount, to, amount, u, t);
      case Reverse(u, from, to, amount) =>
        assert RowOk(db, u);
        Post2Effect(db, from, amount, to, -amount, u, t);
      case Mutate(a, delta) =>
        SelectAppend(db.entries, Posting(db, a, delta, None), OfTransfer(t));
      case _ =>
    }
  }

  /** Booking and reversing, spelled out on the entries of the transfer. */
  lemma ExecBookEffect(db: Db, op: Op)
    requires RowsOk(db) && Guard(db, op) && op.Book?
    ensures var db', es := Exec(db, op), EntriesFor(Exec(db, op), op.tid);
            && |es| == 2 && IsLeg(es[0], op.from, Debit, op.amount) && IsLeg(es[1], op.to, Credit, op.amount)
            && (var status := if op.settles then Settled else Pending;
                db'.transfers == db.transfers[op.tid := db.transfers[op.tid].(status := status)])
  {
    var Book(t, from, to, amount, settles) := op;
    assert RowOk(db, t) && EntriesFor(db, t) == [];
    Post2Effect(db, from, -amount, to, amount, t, t);
    var posted := Post2(db, from, -amount, to, amount, t);
    assert Exec(db, op).entries == posted.entries;
    assert db.transfers == db.transfers[t := db.transfers[t]];
  }

  lemma ExecReverseEffect(db: Db, op: Op)
    requires DbInv(db) && Guard(db, op) && op.Reverse?
    ensures var db', old', es := Exec(db, op), EntriesFor(db, op.tid), EntriesFor(Exec(db, op), op.tid);
            && |old'| == 2 && |es| == 4 && es[..2] == old'
            && IsLeg(es[2], op.from, Credit, op.amount) && IsLeg(es[3], op.to, Debit, op.amount)
            && db'.transfers == db.transfers[op.tid := db.transfers[op.tid].(status := Failed)]
  {
    assert RowOk(db, op.tid) && BookingOk(db, op.tid);
    Post2Effect(db, op.from, op.amount, op.to, -op.amount, op.tid, op.tid);
  }

  lemma ExecKeepsBooking(db: Db, op: Op, t: Id)
    requires DbInv(db) && Guard(db, op) && !op.Truncate? && t in Exec(db, op).transfers
    ensures BookingOk(Exec(db, op), t)
  {
    if !Concerns(op, t) {
      ExecOtherTransfer(db, op, t);
      assert BookingOk(db, t);
    } else if op.Create? {
      UnknownHasNoEntries(db, OfTransfer(t));
    } else {
      assert BookingOk(db, t);
      if op.Book? {
        ExecBookEffect(db, op);
      } else if op.Reverse? {
        ExecReverseEffect(db, op);
        var es := EntriesFor(Exec(db, op), t);
        assert es[0] == es[..2][0] && es[1] == es[..2][1];
      }
    }
  }

  lemma ExecKeepsBookings(db: Db, op: Op)
    requires DbInv(db) && Guard(db, op)
    ensures BookingsOk(Exec(db, op))
  {
    if !op.Truncate? {
      forall t | t in Exec(db, op).transfers ensures BookingOk(Exec(db, op), t) {
        ExecKeepsBooking(db, op, t);
      }
    }
  }

  /** Every operation keeps the whole invariant. */
  lemma ExecKeepsDbInv(db: Db, op: Op)
    requires DbInv(db) && Guard(db, op)
    ensures DbInv(Exec(db, op))
  {
    ExecKeepsLedger(db, op);
    ExecKeepsRows(db, op);
    ExecKeepsKeys(db, op);
    ExecIssued(db, op);
    ExecKeepsBookings(db, op);
  }
}
