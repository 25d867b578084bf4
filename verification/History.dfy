/** Runs of the atomic bank: what holds after any legal sequence of operations. */
module History {
  import opened Common
  import opened Ledger
  import opened Bank
  import opened BankLaws

  /** One committed operation and the client call that committed it. */
  datatype Commit = Commit(client: nat, op: Op)

  function Last(h: seq<Commit>): Commit
    requires h != []
  {
    h[|h| - 1]
  }

  function Front(h: seq<Commit>): seq<Commit>
    requires h != []
  {
    h[..|h| - 1]
  }

  /** The operations happen one at a time, each allowed by the bank that the earlier ones left. */
  ghost predicate Legal(h: seq<Commit>) {
    h == [] || (Legal(Front(h)) && RowsOk(Replay(Front(h))) && Guard(Replay(Front(h)), Last(h).op))
  }

  ghost function Replay(h: seq<Commit>): Db {
    if h == [] then EMPTY_DB
    else
      var db := Replay(Front(h));
      if RowsOk(db) && Guard(db, Last(h).op) then Exec(db, Last(h).op) else db
  }

  lemma {:induction false} LegalHistoryKeepsDbInv(h: seq<Commit>)
    requires Legal(h)
    ensures DbInv(Replay(h))
  {
    if h != [] {
      LegalHistoryKeepsDbInv(Front(h));
      ExecKeepsDbInv(Replay(Front(h)), Last(h).op);
    }
  }

  lemma LegalAppend(h: seq<Commit>, c: Commit)
    requires Legal(h) && Guard(Replay(h), c.op)
    ensures RowsOk(Replay(h))
    ensures Legal(h + [c]) && Replay(h + [c]) == Exec(Replay(h), c.op)
  {
    LegalHistoryKeepsDbInv(h);
    assert Front(h + [c]) == h;
  }

  // ------------------------------------------------------------------------------- exactly-once booking

  /** How often the history books transfer t. */
  function Bookings(h: seq<Commit>, t: Id): nat {
    if h == [] then 0 else Bookings(Front(h), t) + (if Last(h).op.Book? && Last(h).op.tid == t then 1 else 0)
  }

  lemma BookingsAppend(h: seq<Commit>, c: Commit, t: Id)
    ensures Bookings(h + [c], t) == Bookings(h, t) + (if c.op.Book? && c.op.tid == t then 1 else 0)
  {
    assert Front(h + [c]) == h;
  }

  lemma BookedStep(db: Db, op: Op, t: Id)
    requires DbInv(db) && Guard(db, op) && t in Exec(db, op).transfers
    ensures t in db.transfers || !Booked(Exec(db, op), t)
    ensures t in db.transfers ==> (Booked(Exec(db, op), t) <==> Booked(db, t) || (op.Book? && op.tid == t))
    ensures op.Book? && op.tid == t ==> !Booked(db, t)
  {
    if !Concerns(op, t) {
      ExecOtherTransfer(db, op, t);
      if t !in db.transfers { UnknownHasNoEntries(db, OfTransfer(t)); }
    } else if op.Create? {
      UnknownHasNoEntries(db, OfTransfer(t));
    } else if op.Book? {
      ExecBookEffect(db, op);
    } else if op.Reverse? {
      ExecReverseEffect(db, op);
    }
  }

  /** No transfer is ever booked twice, over any history; a live one is booked exactly when it has entries. */
  lemma {:induction false} BookedAtMostOnce(h: seq<Commit>, t: Id)
    requires Legal(h)
    ensures Bookings(h, t) <= 1
    ensures t !in Replay(h).issued ==> Bookings(h, t) == 0
    ensures t in Replay(h).transfers ==> (Bookings(h, t) == 1 <==> Booked(Replay(h), t))
  {
    if h != [] {
      var db, op := Replay(Front(h)), Last(h).op;
      BookedAtMostOnce(Front(h), t);
      LegalHistoryKeepsDbInv(Front(h));
      ExecIssued(db, op);
      if t in Replay(h).transfers { BookedStep(db, op, t); }
      if op.Book? && op.tid == t { assert t in db.transfers; }
    }
  }

  // ------------------------------------------------------------------------ versions count balance changes

  /** Whether an operation changes the balance of account a. */
  predicate Touches(op: Op, a: Id) {
    match op
    case Book(_, from, to, _, _) => a == from || a == to
    case Reverse(_, from, to, _) => a == from || a == to
    case Mutate(b, _) => a == b
    case _ => false
  }

  /** How many commits of the history change the balance of a. */
  function Changes(h: seq<Commit>, a: Id): nat {
    if h == [] then 0 else Changes(Front(h), a) + (if Touches(Last(h).op, a) then 1 else 0)
  }

  lemma VersionStep(db: Db, op: Op, a: Id)
    requires RowsOk(db) && IdsIssued(db) && Guard(db, op) && a in Exec(db, op).accounts
    ensures if op.Open? && op.id == a then Exec(db, op).accounts[a].version == 0
            else a in db.accounts
                 && Exec(db, op).accounts[a].version == db.accounts[a].version + (if Touches(op, a) then 1 else 0)
                 && (!Touches(op, a) ==> Exec(db, op).accounts[a].balance == db.accounts[a].balance)
  {
    if op.Book? || op.Reverse? { assert RowOk(db, op.tid); }
    hide RowsOk, Booked, SetRow;
  }

  lemma TouchedIsIssued(db: Db, op: Op, a: Id)
    requires DbInv(db) && Guard(db, op) && Touches(op, a)
    ensures a in db.issued
  {
  }

  /** The version of a live account is the number of balance changes ever committed to it. */
  lemma {:induction false} VersionCountsChanges(h: seq<Commit>, a: Id)
    requires Legal(h)
    ensures a !in Replay(h).issued ==> Changes(h, a) == 0
    ensures a in Replay(h).accounts ==> Replay(h).accounts[a].version == Changes(h, a)
  {
    if h != [] {
      var db, op := Replay(Front(h)), Last(h).op;
      VersionCountsChanges(Front(h), a);
      LegalHistoryKeepsDbInv(Front(h));
      ExecIssued(db, op);
      if Touches(op, a) { TouchedIsIssued(db, op, a); }
      if a in Replay(h).accounts { VersionStep(db, op, a); }
    }
  }

  // -------------------------------------------------------------------------------------- status and settlement

  /** What one operation may do to the row of a transfer that survives it. */
  predicate StatusMove(before: Transfer, after: Transfer, marked: bool) {
    && (before.status != after.status ==> before.status == Pending || (marked && after.status == Failed))
    && (before.settledAt.Some? ==> after.settledAt == before.settledAt && after.ref == before.ref)
  }

  /** Status leaves PENDING once; only an unconditional MarkFailed can move it again.
      settled_at and settlement_ref are written at most once. */
  lemma StatusMoves(db: Db, op: Op, t: Id)
    requires DbInv(db) && Guard(db, op) && t in db.transfers && t in Exec(db, op).transfers
    ensures StatusMove(db.transfers[t], Exec(db, op).transfers[t], op == MarkFailed(t))
  {
    if !Concerns(op, t) {
      ExecOtherTransfer(db, op, t);
    } else {
      assert BookingOk(db, t);
      if op.Book? { ExecBookEffect(db, op); }
      if op.Reverse? { ExecReverseEffect(db, op); }
    }
  }

  /** No entry is appended for a transfer whose status has left PENDING. */
  lemma NoEntryAfterPending(db: Db, op: Op, t: Id)
    requires DbInv(db) && Guard(db, op) && t in Exec(db, op).transfers
    requires t in db.transfers && db.transfers[t].status != Pending
    ensures EntriesFor(Exec(db, op), t) == EntriesFor(db, t)
  {
    if !Concerns(op, t) { ExecOtherTransfer(db, op, t); }
  }
}
