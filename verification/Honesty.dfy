/** What the answers of the services stand for: when a statement gives the answer of its call, the tables bear it out,
    or an account that the call has read does. */
module Honesty {
  import opened Common
  import opened Ledger
  import opened Bank
  import opened Protocol
  import opened Invariant
  import opened Statements
  import opened Undisturbed
  import opened Replies
  import Calls
  import Commits
  import Modes

  predicate Has(db: Db, t: Id, status: TransferStatus) { t in db.transfers && db.transfers[t].status == status }

  /** The destination of the transfer has spent what it would have to give back. */
  predicate Spent(db: Db, t: Id)
    requires t in db.transfers
  {
    var row := db.transfers[t];
    row.to in db.accounts && db.accounts[row.to].balance < row.amount
  }

  /** The origin of the transfer cannot hold what it would get back. */
  predicate Full(db: Db, t: Id)
    requires t in db.transfers
  {
    var row := db.transfers[t];
    row.from in db.accounts && db.accounts[row.from].balance + row.amount > MAX_INT64
  }

  // ------------------------------------------------------------------------- the tables bear the answer out

  predicate SettleTells(db: Db, t: Id, result: Result) {
    match result
    case Completed => Has(db, t, Settled)
    case SettleOnFailed => Has(db, t, Failed)
    case NotBooked => Has(db, t, Pending) && !HasEntries(db, t)
    case NotFound => t !in db.transfers
    case _ => false
  }

  predicate FailTells(db: Db, t: Id, result: Result) {
    match result
    case Completed => Has(db, t, Failed)
    case FailOnSettled => Has(db, t, Settled)
    case Conflicted => Has(db, t, Pending) && HasEntries(db, t) && Spent(db, t)
    case NotFound => t !in db.transfers
    case Internal => Has(db, t, Pending) && HasEntries(db, t) && Full(db, t)
    case _ => false
  }

  /** t is the transfer that the call asks for. */
  predicate IsOf(db: Db, t: Id, call: Call)
    requires call.CallTransfer?
  {
    && t in db.transfers && db.transfers[t].key == call.key
    && db.transfers[t].from == call.from && db.transfers[t].to == call.to && db.transfers[t].amount == call.amount
  }

  /** SETTLED: the transfer is SETTLED. PENDING: settlements come from outside, and the transfer has entries and is not
      FAILED. */
  predicate AcceptTells(db: Db, external: bool, call: Call, status: TransferStatus, t: Id)
    requires call.CallTransfer?
  {
    && IsOf(db, t, call)
    && match status
       case Settled => db.transfers[t].status == Settled
       case Pending => external && HasEntries(db, t) && db.transfers[t].status != Failed
       case Failed => false
  }

  /** Why a transfer is turned down for good: it is FAILED, an account is missing or not ACTIVE, or money is short. */
  ghost predicate RejectTells(db: Db, call: Call)
    requires call.CallTransfer?
  {
    || (exists t :: IsOf(db, t, call) && db.transfers[t].status == Failed)
    || !IsActive(db, call.from) || !IsActive(db, call.to) || db.accounts[call.from].balance < call.amount
  }

  ghost predicate TransferTells(db: Db, external: bool, call: Call, result: Result)
    requires call.CallTransfer?
  {
    match result
    case Accepted(status) => exists t :: AcceptTells(db, external, call, status, t)
    case Invalid(failed) =>
      if failed then RejectTells(db, call) else call.key == "" || call.from == call.to || call.amount <= 0
    case Conflicted => true
    case Internal =>
      || call.from !in db.accounts || call.to !in db.accounts
      || db.accounts[call.to].balance + call.amount > MAX_INT64
    case _ => false
  }

  predicate MutateTells(db: Db, a: Id, delta: int, result: Result) {
    match result
    case Completed => a in db.accounts
    case NotFound => a !in db.accounts
    case Invalid(failed) =>
      && !failed && a in db.accounts
      && var balance := db.accounts[a].balance + delta;
         db.accounts[a].status != Active || balance < 0 || balance > MAX_INT64
    case Conflicted => true
    case _ => false
  }

  predicate StatusTells(db: Db, a: Id, status: AccountStatus, result: Result) {
    match result
    case Completed => a in db.accounts && db.accounts[a].status == status
    case NotFound => a !in db.accounts
    case _ => false
  }

  /** A CONFLICT of a transfer, deposit or withdrawal, and the end of a reset's attempts, tell of their attempts and not
      of the tables. */
  ghost predicate Tells(db: Db, external: bool, call: Call, result: Result) {
    match call
    case CallTransfer(_, _, _, _, _) => TransferTells(db, external, call, result)
    case CallSettle(t, _) => SettleTells(db, t, result)
    case CallFail(t) => FailTells(db, t, result)
    case CallMutate(a, delta, _) => MutateTells(db, a, delta, result)
    case CallOpen => result == Completed
    case CallSetStatus(a, status) => StatusTells(db, a, status, result)
    case CallReset => result == Internal || (result == Completed && db.transfers == map[] && db.accounts == map[])
  }

  /** An account that was once as it was read is reason enough for the answer. */
  predicate AccountTells(call: Call, result: Result, a: Id, acc: Account) {
    && call.CallTransfer?
    && ((result == Invalid(true) && a == call.from && acc.balance < call.amount)
        || (result == Internal && a == call.to && acc.balance + call.amount > MAX_INT64))
  }

  lemma AccountIsEnough(db: Db, external: bool, call: Call, result: Result, a: Id)
    requires a in db.accounts && AccountTells(call, result, a, db.accounts[a])
    ensures Tells(db, external, call, result)
  {
    hide IsOf;
  }

  /** The row or the key that the call has found before is gone. */
  predicate Missing(db: Db, cl: Client) {
    && cl.w.call.CallTransfer?
    && ((cl.pc.Find? && !InUse(db, cl.w.call.key))
        || (cl.pc.LockRow? && cl.w.tid.Some? && cl.w.tid.value !in db.transfers))
  }

  /** The answer that the call has come to: past its COMMIT only the SELECT for the answer is left, and past its refusal
      only the FAILED mark. */
  function Verdict(cl: Client): Option<Result> {
    if cl.pc.Fetch? then Some(Completed)
    else if cl.pc.MarkFail? then Some(Invalid(true))
    else if cl.pc.Done? then Some(cl.pc.result)
    else None
  }

  predicate KnownAccountTells(cl: Client, result: Result) {
    exists a :: a in cl.w.snap && AccountTells(cl.w.call, result, a, cl.w.snap[a])
  }

  /** The statement gives no answer, or one that was given already, or one with a reason. */
  ghost predicate Honest(db: Db, external: bool, cl: Client, out: Out) {
    var verdict := Verdict(out.cl);
    || verdict == None || verdict == Verdict(cl)
    || Tells(out.db, external, cl.w.call, verdict.value)
    || KnownAccountTells(cl, verdict.value)
    || (verdict.value == Internal && Missing(db, cl))
  }

  // --------------------------------------------------------------------------------------- statement by statement

  lemma ValidateHonest(db: Db, cl: Client, external: bool)
    requires cl.w.call.CallTransfer?
    ensures Honest(db, external, cl, DoValidate(db, cl))
  {
    hide AcceptTells, RejectTells, KnownAccountTells;
  }

  lemma InsertHonest(db: Db, cl: Client, newId: Id, now: nat, external: bool)
    requires cl.w.call.CallTransfer?
    ensures Honest(db, external, cl, DoInsert(db, cl, newId, now))
  {
    hide AcceptTells, RejectTells, KnownAccountTells, KeyTaken;
  }

  lemma FindHonest(db: Db, cl: Client, external: bool)
    requires cl.pc == Find && cl.w.call.CallTransfer?
    ensures Honest(db, external, cl, DoFind(db, cl))
  {
    hide KnownAccountTells, HasEntries, ByKey, IsActive;
    assert KeyTaken(db, cl.w.call.key) <==> InUse(db, cl.w.call.key);
    hide KeyTaken, InUse;
    if KeyTaken(db, cl.w.call.key) {
      var t := ByKey(db, cl.w.call.key);
      assert AcceptTells(db, external, cl.w.call, Settled, t)
        <==> IsOf(db, t, cl.w.call) && db.transfers[t].status == Settled;
    }
  }

  /** The row that a Transfer call is about to lock is the one it asks for. */
  lemma RowIsOf(db: Db, w: Work)
    requires Remembers(db, w) && w.call.CallTransfer? && w.tid.Some? && w.tid.value in db.transfers
    ensures IsOf(db, w.tid.value, w.call)
  {
  }

  lemma SettledHasEntries(db: Db, t: Id)
    requires BookingsOk(db) && t in db.transfers && db.transfers[t].status == Settled
    ensures HasEntries(db, t)
  {
    BookedHasEntries(db, t);
    assert BookingOk(db, t);
    hide BookingsOk, Select, Legs, HasEntries;
  }

  lemma LockRowTransferHonest(db: Db, cl: Client, clock: nat, external: bool)
    requires cl.pc == LockRow && Typed(cl) && cl.w.call.CallTransfer? && Remembers(db, cl.w) && BookingsOk(db)
    ensures Honest(db, external, cl, DoLockRow(db, cl, clock, external))
  {
    var t := cl.w.tid.value;
    hide KnownAccountTells, HasEntries, IsActive, BookingsOk, Remembers, IsOf, SettleTells, FailTells, MutateTells;
    hide StatusTells, Continues;
    if t in db.transfers {
      RowIsOf(db, cl.w);
      if db.transfers[t].status == Settled {
        SettledHasEntries(db, t);
        assert AcceptTells(db, external, cl.w.call, if external then Pending else Settled, t);
      }
    }
  }

  lemma LockRowRowHonest(db: Db, cl: Client, clock: nat, external: bool)
    requires cl.pc == LockRow && Typed(cl) && !cl.w.call.CallTransfer? && CallShape(cl)
    ensures Honest(db, external, cl, DoLockRow(db, cl, clock, external))
  {
    hide KnownAccountTells, HasEntries, Spent, Full, ParamsValid, CallOk, TransferTells, MutateTells, StatusTells;
    hide Continues, SuccessOf;
  }

  lemma LockRowHonest(db: Db, cl: Client, clock: nat, external: bool)
    requires cl.pc == LockRow && Typed(cl) && CallShape(cl) && Remembers(db, cl.w) && BookingsOk(db)
    ensures Honest(db, external, cl, DoLockRow(db, cl, clock, external))
  {
    hide Honest, DoLockRow, CallShape, Remembers, BookingsOk;
    if cl.w.call.CallTransfer? { LockRowTransferHonest(db, cl, clock, external); }
    else { LockRowRowHonest(db, cl, clock, external); }
  }

  lemma CountBookedHonest(db: Db, cl: Client, external: bool)
    requires cl.pc == CountBooked && Shape(cl, external) && Linked(db, cl.w, cl.held)
    requires !external ==> Modes.NoneAwaits(db)
    ensures Honest(db, external, cl, DoCountBooked(db, cl, external))
  {
    assert RowRead(cl.w, Pending) && Remembers(db, cl.w) && CallShape(cl);
    LockedRow(db, cl.w, cl.held);
    var t := cl.w.tid.value;
    BookedHasEntries(db, t);
    hide Linked, HeldShape, HasEntries, Select, PcShape, RowRead, KnownAccountTells, IsActive, Spent, Full, Remembers;
    hide ParamsValid, IsOf;
    if cl.w.call.CallTransfer? {
      RowIsOf(db, cl.w);
      assert HasEntries(db, t) ==> AcceptTells(db, external, cl.w.call, if external then Pending else Settled, t);
    }
  }

  // ------------------------------------------------------------------------------------------------ accounts

  /** The first account is ACTIVE when the second is read; its balance is the one that was read. */
  lemma ReadTransferHonest(db: Db, cl: Client, n: nat, external: bool)
    requires cl.pc == ReadAcc(n) && ReadShape(cl, n) && cl.w.call.CallTransfer?
    ensures Honest(db, external, cl, DoReadAcc(db, cl, n))
  {
    var a := ReadAt(cl.w, n);
    FirstOfTwo(cl, n);
    hide ReadShape, IsOf, HasEntries;
    if a in db.accounts && n == 1 && From(cl.w) != a {
      assert AccountTells(cl.w.call, Invalid(true), From(cl.w), cl.w.snap[From(cl.w)])
        <==> cl.w.snap[From(cl.w)].balance < Amount(cl.w);
    }
  }

  lemma FirstOfTwo(cl: Client, n: nat)
    requires ReadShape(cl, n) && cl.w.call.CallTransfer?
    ensures n < 2 && (n == 1 && From(cl.w) != ReadAt(cl.w, n) ==> From(cl.w) in cl.w.snap)
  {
    hide Counted;
  }

  lemma ReadMutateHonest(db: Db, cl: Client, n: nat, external: bool)
    requires cl.pc == ReadAcc(n) && CallOk(cl.w.call) && AccountsOk(db) && cl.w.call.CallMutate?
    ensures Honest(db, external, cl, DoReadAcc(db, cl, n))
  {
    var a := cl.w.call.account;
    assert a in db.accounts ==> AccountOk(db, a);
    hide AccountsOk, Running, Net, Select, KnownAccountTells;
  }

  /** The balance that turned the reversal down is the current one. */
  lemma BalanceRead(db: Db, w: Work, held: set<Lock>, a: Id)
    requires Linked(db, w, held) && HeldShape(w, held, map[]) && AccountsOk(db) && RowsHeld(w, held, 1) && Reads(w, 1)
    requires w.call.CallFail? && Counted(w, true) && a == ReadAt(w, 1) && a in db.accounts
    ensures To(w) in db.accounts && SnapBalance(Read(db, w, a), To(w)) == db.accounts[To(w)].balance
    ensures 0 <= db.accounts[To(w)].balance <= MAX_INT64
  {
    hide HeldShape, Select, NewBalance;
    if To(w) != a { assert To(w) in w.snap && AccountRow(To(w)) in held && VersionMatches(db, w, To(w)); }
    assert AccountOk(db, To(w));
  }

  /** A negative new balance means that the destination has less than it would give back: no sum wraps here. */
  lemma ShortOfFunds(w: Work, balance: int)
    requires w.call.CallFail? && Counted(w, true) && SnapBalance(w, To(w)) == balance && 0 <= balance <= MAX_INT64
    ensures NewBalance(w, To(w)) < 0 ==> balance < w.row.value.amount
  {
    assert Delta(w, To(w)) == -w.row.value.amount && IsInt64(balance - w.row.value.amount);
    hide Wrap64, SnapBalance;
  }

  /** A reversal is turned down only when its destination has spent the money. */
  lemma ReversalSpent(db: Db, cl: Client, external: bool)
    requires Shape(cl, external) && Linked(db, cl.w, cl.held) && AccountsOk(db) && cl.pc == LockAcc(1)
    requires ReadAt(cl.w, 1) in db.accounts && cl.w.call.failed in db.transfers
    requires cl.w.row == Some(db.transfers[cl.w.call.failed]) && To(cl.w) == db.transfers[cl.w.call.failed].to
    ensures NewBalance(Read(db, cl.w, ReadAt(cl.w, 1)), To(cl.w)) < 0 ==> Spent(db, cl.w.call.failed)
  {
    var a := ReadAt(cl.w, 1);
    assert LockShape(cl, 1);
    hide Shape, Linked, AccountsOk, HeldShape, RowsHeld, Reads, SnapBalance, NewBalance, ReadAt;
    ShapeHeld(cl, external);
    BalanceRead(db, cl.w, cl.held, a);
    ShortOfFunds(Read(db, cl.w, a), db.accounts[To(cl.w)].balance);
  }

  lemma ShapeHeld(cl: Client, external: bool)
    requires Shape(cl, external) && cl.bal == map[]
    ensures HeldShape(cl.w, cl.held, map[])
  {
    hide PcShape, CallShape;
  }

  /** The transfer and its accounts, as the reversal locked and counted them. */
  lemma RowToReverse(db: Db, cl: Client, external: bool)
    requires Shape(cl, external) && Linked(db, cl.w, cl.held) && RowsOk(db) && cl.w.call.CallFail?
             && Counted(cl.w, true)
    ensures var t := cl.w.call.failed;
            && Has(db, t, Pending) && HasEntries(db, t) && cl.w.row == Some(db.transfers[t])
            && From(cl.w) == db.transfers[t].from && To(cl.w) == db.transfers[t].to && From(cl.w) != To(cl.w)
            && From(cl.w) in db.accounts && To(cl.w) in db.accounts && Amount(cl.w) == db.transfers[t].amount
            && ValidAmount(Amount(cl.w))
  {
    FailAt(db, cl, external);
    LockedRow(db, cl.w, cl.held);
    assert RowOk(db, cl.w.call.failed);
    hide Shape, Linked, RowsOk, HasEntries, Counted;
  }

  /** The second account turns the reversal down, or nothing does. */
  lemma LockAccAnswers(db: Db, cl: Client, n: nat)
    requires cl.pc == LockAcc(n) && cl.w.call.CallFail? && From(cl.w) in db.accounts && To(cl.w) in db.accounts
    ensures var out := DoLockAcc(db, cl, n);
            && out.db == db
            && (Verdict(out.cl) == None
                || (Verdict(out.cl) == Some(Conflicted) && n > 0
                    && NewBalance(Read(db, cl.w, ReadAt(cl.w, n)), To(cl.w)) < 0))
  {
    hide NewBalance, Continues, To, From;
  }

  lemma TellsSpent(db: Db, external: bool, t: Id)
    requires Has(db, t, Pending) && HasEntries(db, t) && Spent(db, t)
    ensures Tells(db, external, CallFail(t), Conflicted)
  {
    hide HasEntries, Spent;
  }

  lemma LockAccHonest(db: Db, cl: Client, n: nat, external: bool)
    requires Shape(cl, external) && Linked(db, cl.w, cl.held) && AccountsOk(db) && RowsOk(db) && cl.pc == LockAcc(n)
    ensures Honest(db, external, cl, DoLockAcc(db, cl, n))
  {
    assert LockShape(cl, n);
    RowToReverse(db, cl, external);
    assert cl.w.call == CallFail(cl.w.call.failed) && n < 2;
    hide Shape, Linked, AccountsOk, RowsOk, LockShape, HasEntries, Spent, Full, Has, Tells, KnownAccountTells, Verdict;
    hide NewBalance, From, To, ReadAt, Missing;
    LockAccAnswers(db, cl, n);
    hide DoLockAcc;
    if n == 1 && ReadAt(cl.w, n) in db.accounts {
      ReversalSpent(db, cl, external);
      if Spent(db, cl.w.call.failed) { TellsSpent(db, external, cl.w.call.failed); }
    }
    assert ReadAt(cl.w, n) in db.accounts by { ReadsOfTwo(cl.w, n); }
  }

  lemma ReadsOfTwo(w: Work, n: nat)
    ensures ReadAt(w, n) == From(w) || ReadAt(w, n) == To(w)
  {
    hide From, To;
  }

  // -------------------------------------------------------------------------------------------------- updates

  /** The destination of a transfer would overflow. */
  lemma TransferOverflows(w: Work, held: set<Lock>, a: Id)
    requires Ready(w, held) && w.call.CallTransfer? && w.call.amount > 0 && IsInt64(w.call.amount)
    requires a == From(w) || a == To(w)
    ensures From(w) in w.snap && To(w) in w.snap
    ensures NewBalance(w, a) < 0 ==> AccountTells(w.call, Internal, To(w), w.snap[To(w)])
  {
    hide Counted, RowsHeld;
  }

  /** What an UPDATE of a Transfer can answer. */
  lemma UpdateAnswers(db: Db, cl: Client, n: nat)
    requires cl.pc == UpdateAcc(n) && cl.w.call.CallTransfer?
    ensures var verdict := Verdict(DoUpdateAcc(db, cl, n).cl);
            || verdict == None || verdict == Some(Conflicted)
            || (verdict == Some(Internal) && NewBalance(cl.w, UpdateAt(cl.w, n)) < 0)
  {
    hide NewBalance, VersionMatches, UpdateAt, Continues;
  }

  lemma ConflictIsTold(db: Db, external: bool, call: Call)
    requires call.CallTransfer?
    ensures Tells(db, external, call, Conflicted)
  {
  }

  lemma UpdateTransferHonest(db: Db, cl: Client, n: nat, external: bool)
    requires cl.pc == UpdateAcc(n) && Shape(cl, external) && cl.w.call.CallTransfer?
    ensures Honest(db, external, cl, DoUpdateAcc(db, cl, n))
  {
    assert Ready(cl.w, cl.held) && CallShape(cl) && ParamsValid(cl.w.call) && CallOk(cl.w.call);
    assert UpdateAt(cl.w, n) == From(cl.w) || UpdateAt(cl.w, n) == To(cl.w);
    hide Shape, CallShape, Ready, NewBalance, AccountTells, Tells, Verdict, DoUpdateAcc, Missing, UpdateAt, From, To;
    TransferOverflows(cl.w, cl.held, UpdateAt(cl.w, n));
    UpdateAnswers(db, cl, n);
    ConflictIsTold(DoUpdateAcc(db, cl, n).db, external, cl.w.call);
  }

  lemma UpdateMutateHonest(db: Db, cl: Client, n: nat, external: bool)
    requires cl.pc == UpdateAcc(n) && Shape(cl, external) && cl.w.call.CallMutate?
    ensures Honest(db, external, cl, DoUpdateAcc(db, cl, n))
  {
    assert Ready(cl.w, cl.held) && UpdateAt(cl.w, n) == cl.w.call.account;
    assert 0 <= NewBalance(cl.w, cl.w.call.account);
    hide Shape, Ready, NewBalance, VersionMatches, AccountTells;
  }

  /** A reversal that is ready fails only when its origin would overflow. */
  lemma ReversalOverflows(db: Db, w: Work, held: set<Lock>, t: Id, a: Id)
    requires Ready(w, held) && w.call.CallFail? && Linked(db, w, held) && (a == From(w) || a == To(w))
    requires t in db.transfers && From(w) == db.transfers[t].from && Amount(w) == db.transfers[t].amount
    requires From(w) in db.accounts && From(w) != To(w) && ValidAmount(Amount(w))
    ensures NewBalance(w, a) < 0 ==> Full(db, t)
  {
    hide Counted, Select, Remembers, From, To, Amount;
    assert From(w) in w.snap && AccountRow(From(w)) in held by { ReadyHolds(w, held); }
    assert VersionMatches(db, w, From(w)) && SnapOk(db, From(w), w.snap[From(w)]);
  }

  lemma ReadyHolds(w: Work, held: set<Lock>)
    requires Ready(w, held) && w.call.CallFail?
    ensures From(w) in w.snap && AccountRow(From(w)) in held && 0 <= w.snap[From(w)].balance <= MAX_INT64
  {
    hide Counted, NewBalance;
  }

  lemma UpdateFailHonest(db: Db, cl: Client, n: nat, external: bool)
    requires cl.pc == UpdateAcc(n) && Shape(cl, external) && Linked(db, cl.w, cl.held) && RowsOk(db)
    requires cl.w.call.CallFail?
    ensures Honest(db, external, cl, DoUpdateAcc(db, cl, n))
  {
    assert Ready(cl.w, cl.held) && Counted(cl.w, true);
    RowToReverse(db, cl, external);
    ReversalOverflows(db, cl.w, cl.held, cl.w.call.failed, UpdateAt(cl.w, n));
    Calls.ReversalMatches(db, cl, n);
    hide Shape, Linked, Ready, NewBalance, VersionMatches, HasEntries, Full, Spent, KnownAccountTells, RowsOk;
  }

  // --------------------------------------------------------------------------------------------------- COMMIT

  /** A booking leaves the row of its key with entries, SETTLED in the internal mode and PENDING in the other. */
  lemma BookedTells(db: Db, cl: Client, external: bool)
    requires Shape(cl, external) && Linked(db, cl.w, cl.held) && cl.pc == CommitTx && cl.w.call.CallTransfer?
    ensures cl.w.tid.Some?
    ensures AcceptTells(Publish(db, cl), external, cl.w.call, if external then Pending else Settled, cl.w.tid.value)
  {
    var w := cl.w;
    assert Posted(w, cl.held, cl.bal, cl.adds) && Remembers(db, w);
    assert cl.write == if external then NoWrite else WriteStatus(Settled);
    assert Ready(w, cl.held) && Counted(w, false);
    LockedRow(db, w, cl.held);
    RowIsOf(db, w);
    Commits.PublishedRow(db, cl, w.tid.value);
    FirstEntry(cl);
    hide Shape, Linked, Posted, Ready, Counted, Remembers;
    assert Publish(db, cl).entries[|db.entries|].transfer == Some(w.tid.value);
  }

  lemma FirstEntry(cl: Client)
    requires Posted(cl.w, cl.held, cl.bal, cl.adds) && cl.w.call.CallTransfer? && cl.w.tid.Some?
    ensures cl.adds != [] && cl.adds[0].transfer == cl.w.tid
  {
    hide Ready, Updated, NewBalance;
  }

  /** At its COMMIT a Settle or Fail sets the status, or it has locked the row with that status. */
  lemma CommitTells(db: Db, cl: Client, external: bool)
    requires Shape(cl, external) && Linked(db, cl.w, cl.held) && cl.pc == CommitTx
    requires cl.w.call.CallSettle? || cl.w.call.CallFail?
    ensures cl.w.call.CallSettle? ==> Has(Publish(db, cl), cl.w.call.settled, Settled)
    ensures cl.w.call.CallFail? ==> Has(Publish(db, cl), cl.w.call.failed, Failed)
  {
    CommitRow(db, cl, external);
    if cl.w.call.CallFail? { FailWrites(cl, external); }
    Commits.PublishedRow(db, cl, cl.w.tid.value);
    hide Shape, Linked, Publish;
  }

  lemma FailWrites(cl: Client, external: bool)
    requires Shape(cl, external) && cl.pc == CommitTx && cl.w.call.CallFail?
    ensures cl.write == NoWrite || cl.write == WriteStatus(Failed)
  {
    hide Posted, Counted, RowRead, HeldShape, CallShape, Blank;
  }

  /** The answer that a COMMIT gives. */
  function CommitAnswer(call: Call, external: bool): Result {
    if call.CallTransfer? then Accepted(if external then Pending else Settled) else Completed
  }

  lemma CommitAnswers(db: Db, cl: Client, external: bool)
    requires cl.pc == CommitTx
    ensures DoCommit(db, cl, external).db == Publish(db, cl)
    ensures Verdict(DoCommit(db, cl, external).cl) == Some(CommitAnswer(cl.w.call, external))
  {
    hide Publish, CommittedOp, Continues;
  }

  lemma AcceptIsTold(db: Db, external: bool, call: Call, status: TransferStatus, t: Id)
    requires call.CallTransfer? && AcceptTells(db, external, call, status, t)
    ensures Tells(db, external, call, Accepted(status))
  {
    hide AcceptTells;
  }

  lemma CompletionIsTold(db: Db, external: bool, call: Call)
    requires call.CallSettle? ==> Has(db, call.settled, Settled)
    requires call.CallFail? ==> Has(db, call.failed, Failed)
    requires call.CallMutate? ==> call.account in db.accounts
    requires call.CallSettle? || call.CallFail? || call.CallMutate?
    ensures Tells(db, external, call, Completed)
  {
    hide Has;
  }

  lemma CommitHonest(db: Db, cl: Client, external: bool)
    requires Shape(cl, external) && Linked(db, cl.w, cl.held) && cl.pc == CommitTx
    requires cl.w.call.CallMutate? ==> cl.w.call.account in db.accounts
    ensures Honest(db, external, cl, DoCommit(db, cl, external))
  {
    CommitCalls(cl, external);
    CommitAnswers(db, cl, external);
    assert cl.w.call.CallMutate? ==> cl.w.call.account in Publish(db, cl).accounts;
    hide Shape, Linked, Publish, Has, AcceptTells, Tells, KnownAccountTells, Missing, DoCommit, Verdict;
    if cl.w.call.CallTransfer? {
      BookedTells(db, cl, external);
      AcceptIsTold(Publish(db, cl), external, cl.w.call, if external then Pending else Settled, cl.w.tid.value);
    } else {
      if !cl.w.call.CallMutate? { CommitTells(db, cl, external); }
      CompletionIsTold(Publish(db, cl), external, cl.w.call);
    }
  }

  // ---------------------------------------------------------------------------------------------- single statements

  lemma SmallHonest(db: Db, cl: Client, newId: Id, now: nat, clock: nat, external: bool)
    requires Shape(cl, external) && Typed(cl) && !cl.pc.Done?
    requires cl.pc.MarkFail? || cl.pc.Fetch? || cl.pc.OpenAcc? || cl.pc.WriteAccStatus? || cl.pc.LockTables?
             || cl.pc.TruncateAll?
    ensures Honest(db, external, cl, DoStatement(db, cl, newId, now, clock, external))
  {
    assert RestShape(cl) && CallShape(cl);
    hide Shape, HasEntries, IsOf, KnownAccountTells, AcceptTells, RejectTells, Spent, Full;
    hide DoValidate, DoInsert, DoFind, DoLockRow, DoCountBooked, DoReadAcc, DoLockAcc, DoUpdateAcc, DoAddEntry;
    hide DoWriteRow, DoCommit, Continues, ParamsValid, CallOk;
  }

  lemma WritesHonest(db: Db, cl: Client, now: nat, external: bool)
    ensures cl.pc.AddEntry? ==> Honest(db, external, cl, DoAddEntry(db, cl, cl.pc.n, external))
    ensures cl.pc.WriteRow? ==> Honest(db, external, cl, DoWriteRow(db, cl, now))
  {
    hide NewEntry, RowWriteOf, Tells, KnownAccountTells;
  }

  lemma AccountsHonest(db: Db, cl: Client, external: bool)
    requires Shape(cl, external) && Linked(db, cl.w, cl.held) && AccountsOk(db) && RowsOk(db) && Typed(cl)
    ensures cl.pc.ReadAcc? ==> Honest(db, external, cl, DoReadAcc(db, cl, cl.pc.n))
    ensures cl.pc.UpdateAcc? ==> Honest(db, external, cl, DoUpdateAcc(db, cl, cl.pc.n))
  {
    if cl.pc.ReadAcc? {
      assert ReadShape(cl, cl.pc.n) && CallOk(cl.w.call);
      ReadsFor(cl, external);
      hide Shape, Linked, AccountsOk, RowsOk, Honest, DoReadAcc;
      if cl.w.call.CallTransfer? { ReadTransferHonest(db, cl, cl.pc.n, external); }
      else { ReadMutateHonest(db, cl, cl.pc.n, external); }
    } else if cl.pc.UpdateAcc? {
      ReadyCall(cl.w, cl.held);
      hide Shape, Linked, AccountsOk, RowsOk, Honest, DoUpdateAcc;
      if cl.w.call.CallTransfer? { UpdateTransferHonest(db, cl, cl.pc.n, external); }
      else if cl.w.call.CallMutate? { UpdateMutateHonest(db, cl, cl.pc.n, external); }
      else { UpdateFailHonest(db, cl, cl.pc.n, external); }
    }
  }

  /** Every statement. */
  lemma StatementHonest(db: Db, cl: Client, newId: Id, now: nat, clock: nat, external: bool)
    requires DbInv(db) && CanRun(db, cl, external) && Typed(cl) && !cl.pc.Done?
    requires !external ==> Modes.NoneAwaits(db)
    ensures Honest(db, external, cl, DoStatement(db, cl, newId, now, clock, external))
  {
    ReadsFor(cl, external);
    LinkedRemembers(db, cl);
    if cl.pc.CommitTx? && cl.w.call.CallMutate? { MutatesKnown(db, cl, external); }
    hide Honest, Shape, Linked, RowsOk, AccountsOk, EntriesOk, KeysUnique, IdsIssued, BookingsOk, Typed, NextLock;
    hide Remembers, Modes.NoneAwaits, CallShape;
    match cl.pc {
      case Validate => ValidateHonest(db, cl, external);
      case Insert => InsertHonest(db, cl, newId, now, external);
      case Find => FindHonest(db, cl, external);
      case LockRow => LockRowHonest(db, cl, clock, external);
      case CountBooked => CountBookedHonest(db, cl, external);
      case ReadAcc(_) => AccountsHonest(db, cl, external);
      case LockAcc(n) => LockAccHonest(db, cl, n, external);
      case UpdateAcc(_) => AccountsHonest(db, cl, external);
      case AddEntry(_) => WritesHonest(db, cl, now, external);
      case WriteRow => WritesHonest(db, cl, now, external);
      case CommitTx => CommitHonest(db, cl, external);
      case _ => SmallHonest(db, cl, newId, now, clock, external);
    }
  }

  lemma LinkedRemembers(db: Db, cl: Client)
    requires Linked(db, cl.w, cl.held)
    ensures Remembers(db, cl.w)
  {
  }

  lemma MutatesKnown(db: Db, cl: Client, external: bool)
    requires Shape(cl, external) && Linked(db, cl.w, cl.held) && cl.pc.CommitTx? && cl.w.call.CallMutate?
    ensures cl.w.call.account in db.accounts
  {
    assert cl.w.call.account in cl.w.snap && SnapOk(db, cl.w.call.account, cl.w.snap[cl.w.call.account]);
  }
}
