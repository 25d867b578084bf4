/** The control flow of the services: where a call can stand after each of its statements, whatever the tables hold. */
module Flow {
  import opened Common
  import opened Ledger
  import opened Bank
  import opened Protocol
  import opened Database

  /** The same call in the same try and attempt. */
  predicate Steady(cl: Client, cl': Client) {
    cl'.w.call == cl.w.call && cl'.attempt == cl.attempt && cl'.outer == cl.outer && cl'.clashed == cl.clashed
  }

  predicate Goes(cl: Client, cl': Client, pc: Pc) { Steady(cl, cl') && cl'.pc == pc }

  predicate Finishes(cl: Client, cl': Client) { Steady(cl, cl') && cl'.pc.Done? }

  /** A worker of the simulator starts its call over after a CONFLICT. */
  predicate StartsOver(cl: Client, cl': Client) {
    && cl.w.call.CallTransfer? && cl'.w.call == cl.w.call && cl'.pc == Validate && cl'.attempt == 0
    && cl'.outer == cl.outer + 1 < cl.w.call.tries && cl'.clashed == cl.clashed
  }

  /** The key belongs to other parameters: CONFLICT, or the same from the start. */
  predicate Clashes(cl: Client, cl': Client) {
    && cl.w.call.CallTransfer? && cl'.w.call == cl.w.call && cl'.clashed == cl.clashed + 1
    && if cl'.pc == Validate then cl'.outer == cl.outer + 1 < cl.w.call.tries && cl'.attempt == 0
       else cl'.pc == Done(Conflicted) && cl'.outer == cl.outer && cl'.attempt == cl.attempt
  }

  /** The first attempt at processing begins. */
  predicate Enters(cl: Client, cl': Client) {
    cl'.w.call == cl.w.call && cl'.pc == LockRow && cl'.attempt == 0 && cl'.outer == cl.outer
    && cl'.clashed == cl.clashed
  }

  /** The call is over, for another reason than a CONFLICT. */
  predicate Stops(cl: Client, cl': Client) { Finishes(cl, cl') && cl'.pc != Done(Conflicted) }

  predicate Retries(cl: Client, cl': Client, pc: Pc) {
    && cl'.w.call == cl.w.call && cl'.outer == cl.outer && cl'.pc == pc
    && cl'.attempt == cl.attempt + 1 < MAX_RETRIES && cl'.clashed == cl.clashed
  }

  /** The third attempt in a row was lost. */
  predicate GivesUp(cl: Client, cl': Client) {
    cl.attempt + 1 >= MAX_RETRIES && ((Finishes(cl, cl') && cl'.pc == Done(Conflicted)) || StartsOver(cl, cl'))
  }

  predicate TransferFlow(cl: Client, cl': Client, external: bool) {
    match cl.pc
    case Validate => Goes(cl, cl', Insert) || Stops(cl, cl')
    case Insert => Enters(cl, cl') || Goes(cl, cl', Find) || Stops(cl, cl')
    case Find => Enters(cl, cl') || Stops(cl, cl') || Clashes(cl, cl')
    case LockRow => Goes(cl, cl', CountBooked) || Goes(cl, cl', MarkFail) || Stops(cl, cl')
    case CountBooked => Goes(cl, cl', ReadAcc(0)) || Stops(cl, cl')
    case ReadAcc(n) => Goes(cl, cl', if n == 0 then ReadAcc(1) else UpdateAcc(0)) || Goes(cl, cl', MarkFail)
    case UpdateAcc(n) =>
      || Goes(cl, cl', if n == 0 then UpdateAcc(1) else AddEntry(0))
      || Retries(cl, cl', LockRow) || GivesUp(cl, cl') || (Finishes(cl, cl') && cl'.pc == Done(Internal))
    case AddEntry(n) => Goes(cl, cl', if n == 0 then AddEntry(1) else if external then CommitTx else WriteRow)
    case WriteRow => Goes(cl, cl', CommitTx)
    case CommitTx => Stops(cl, cl')
    case MarkFail => Finishes(cl, cl') && cl'.pc == Done(Invalid(true))
    case _ => true
  }

  predicate MutateFlow(cl: Client, cl': Client) {
    match cl.pc
    case ReadAcc(_) => Goes(cl, cl', UpdateAcc(0)) || Finishes(cl, cl')
    case UpdateAcc(_) => Goes(cl, cl', AddEntry(0)) || Retries(cl, cl', ReadAcc(0)) || Finishes(cl, cl')
    case AddEntry(_) => Goes(cl, cl', CommitTx)
    case CommitTx => Finishes(cl, cl')
    case _ => true
  }

  predicate RowFlow(cl: Client, cl': Client) {
    match cl.pc
    case LockRow => Goes(cl, cl', CountBooked) || Goes(cl, cl', CommitTx) || Finishes(cl, cl')
    case CountBooked => Goes(cl, cl', WriteRow) || (cl.w.call.CallFail? && Goes(cl, cl', LockAcc(0)))
                        || Finishes(cl, cl')
    case LockAcc(n) => Goes(cl, cl', if n == 0 then LockAcc(1) else UpdateAcc(0)) || Finishes(cl, cl')
    case UpdateAcc(n) => Goes(cl, cl', if n == 0 then UpdateAcc(1) else AddEntry(0)) || Finishes(cl, cl')
    case AddEntry(n) => Goes(cl, cl', if n == 0 then AddEntry(1) else WriteRow)
    case WriteRow => Goes(cl, cl', CommitTx)
    case CommitTx => Goes(cl, cl', Fetch)
    case Fetch => Finishes(cl, cl')
    case _ => true
  }

  /** Opening, blocking and reset. */
  predicate OneStepFlow(cl: Client, cl': Client) {
    match cl.pc
    case OpenAcc => Finishes(cl, cl')
    case WriteAccStatus => Finishes(cl, cl')
    case LockTables => Goes(cl, cl', TruncateAll)
    case TruncateAll => Finishes(cl, cl')
    case _ => true
  }

  ghost predicate Flows(cl: Client, cl': Client, external: bool) {
    if cl.w.call.CallTransfer? then TransferFlow(cl, cl', external)
    else if cl.w.call.CallMutate? then MutateFlow(cl, cl')
    else if cl.w.call.CallSettle? || cl.w.call.CallFail? then RowFlow(cl, cl')
    else OneStepFlow(cl, cl')
  }

  lemma TransferRowFlows(db: Db, cl: Client, newId: Id, now: nat, clock: nat, external: bool)
    requires Typed(cl) && cl.w.call.CallTransfer?
    requires cl.pc.Validate? || cl.pc.Insert? || cl.pc.Find? || cl.pc.LockRow? || cl.pc.CountBooked?
    ensures TransferFlow(cl, DoStatement(db, cl, newId, now, clock, external).cl, external)
  {
    hide KeyTaken, ByKey, Select, RowIs, ParamsValid;
    hide Continues, DoReadAcc, DoLockAcc, DoUpdateAcc, DoAddEntry, DoCommit;
  }

  lemma TransferAccountFlows(db: Db, cl: Client, newId: Id, now: nat, clock: nat, external: bool)
    requires Typed(cl) && cl.w.call.CallTransfer? && !cl.pc.Done?
    requires !cl.pc.Validate? && !cl.pc.Insert? && !cl.pc.Find? && !cl.pc.LockRow? && !cl.pc.CountBooked?
    ensures TransferFlow(cl, DoStatement(db, cl, newId, now, clock, external).cl, external)
  {
    hide DoValidate, DoInsert, DoFind, DoLockRow, DoCountBooked, DoLockAcc;
    hide NewBalance, VersionMatches, NewEntry, Publish, ReadAt, UpdateAt, Continues;
  }

  lemma MutateFlows(db: Db, cl: Client, newId: Id, now: nat, clock: nat, external: bool)
    requires Typed(cl) && cl.w.call.CallMutate?
    ensures MutateFlow(cl, DoStatement(db, cl, newId, now, clock, external).cl)
  {
    hide DoValidate, DoInsert, DoFind, DoLockRow, DoCountBooked, DoLockAcc;
    hide NewBalance, VersionMatches, NewEntry, Publish, ReadAt, UpdateAt, Continues;
  }

  lemma RowStarts(db: Db, cl: Client, newId: Id, now: nat, clock: nat, external: bool)
    requires Typed(cl) && (cl.w.call.CallSettle? || cl.w.call.CallFail?)
    requires cl.pc.LockRow? || cl.pc.CountBooked? || cl.pc.Fetch? || cl.pc.CommitTx?
    ensures RowFlow(cl, DoStatement(db, cl, newId, now, clock, external).cl)
  {
    hide DoValidate, DoInsert, DoFind, DoReadAcc, DoLockAcc, DoUpdateAcc, DoAddEntry;
    hide Publish, Continues, Select, RowIs;
  }

  lemma RowFlows(db: Db, cl: Client, newId: Id, now: nat, clock: nat, external: bool)
    requires Typed(cl) && (cl.w.call.CallSettle? || cl.w.call.CallFail?)
    requires !cl.pc.LockRow? && !cl.pc.CountBooked? && !cl.pc.Fetch? && !cl.pc.CommitTx?
    ensures RowFlow(cl, DoStatement(db, cl, newId, now, clock, external).cl)
  {
    hide DoValidate, DoInsert, DoFind, DoReadAcc, DoLockRow, DoCountBooked, DoCommit;
    hide NewBalance, VersionMatches, NewEntry, Publish, ReadAt, UpdateAt, Continues;
  }

  lemma OneStepFlows(db: Db, cl: Client, newId: Id, now: nat, clock: nat, external: bool)
    requires Typed(cl) && (cl.w.call.CallOpen? || cl.w.call.CallSetStatus? || cl.w.call.CallReset?)
    ensures OneStepFlow(cl, DoStatement(db, cl, newId, now, clock, external).cl)
  {
    hide DoValidate, DoInsert, DoFind, DoLockRow, DoCountBooked;
    hide DoReadAcc, DoLockAcc, DoUpdateAcc, DoAddEntry, DoCommit, Continues;
  }

  lemma StatementFlows(cl: Client, cl': Client, external: bool)
    requires Ran(cl, cl', external) && !cl.pc.Done?
    ensures Flows(cl, cl', external)
  {
    var db, held, newId, now, clock :|
      Typed(cl.(held := held)) && cl' == DoStatement(db, cl.(held := held), newId, now, clock, external).cl;
    hide DoStatement, Typed, TransferFlow, MutateFlow, RowFlow, OneStepFlow;
    var cl0 := cl.(held := held);
    if cl.w.call.CallTransfer? {
      if cl.pc.Validate? || cl.pc.Insert? || cl.pc.Find? || cl.pc.LockRow? || cl.pc.CountBooked? {
        TransferRowFlows(db, cl0, newId, now, clock, external);
      } else {
        TransferAccountFlows(db, cl0, newId, now, clock, external);
      }
    } else if cl.w.call.CallMutate? {
      MutateFlows(db, cl0, newId, now, clock, external);
    } else if cl.w.call.CallSettle? || cl.w.call.CallFail? {
      if cl.pc.LockRow? || cl.pc.CountBooked? || cl.pc.Fetch? || cl.pc.CommitTx? {
        RowStarts(db, cl0, newId, now, clock, external);
      } else {
        RowFlows(db, cl0, newId, now, clock, external);
      }
    } else {
      OneStepFlows(db, cl0, newId, now, clock, external);
    }
    LocksDoNotSteer(cl, held, cl', external);
  }

  lemma LocksDoNotSteer(cl: Client, held: set<Lock>, cl': Client, external: bool)
    requires Flows(cl.(held := held), cl', external)
    ensures Flows(cl, cl', external)
  {
  }
}
