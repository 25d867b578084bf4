/** Whose key it is: every transfer was asked for by a call with its key and parameters, so that a call alone with its
    key never meets foreign parameters. */
module Keys {
  import opened Common
  import opened Ledger
  import opened Bank
  import opened BankLaws
  import opened History
  import opened Protocol
  import opened Invariant
  import opened Refinement
  import opened Steps
  import Calls
  import Settlement

  /** No other Transfer call ever carried the key of client c. */
  predicate AloneWithKey(s: State, c: nat) {
    && c in s.clients && s.clients[c].w.call.CallTransfer?
    && forall d :: d in s.clients && d != c && s.clients[d].w.call.CallTransfer? ==>
         s.clients[d].w.call.key != s.clients[c].w.call.key
  }

  /** Client d is a Transfer call with the key and the parameters of the row. */
  predicate Carries(s: State, d: nat, row: Transfer) {
    d in s.clients && s.clients[d].w.call.CallTransfer? && RowFits(s.clients[d].w, row)
  }

  /** Every transfer was asked for by some Transfer call. */
  ghost predicate RowsHaveCallers(s: State) {
    forall t :: t in s.db.transfers ==> exists d :: Carries(s, d, s.db.transfers[t])
  }

  /** Which call commits an operation on a transfer. */
  ghost predicate Origin(s: State, c: nat, op: Op)
    requires c in s.clients
  {
    var cl := s.clients[c];
    && (op.Create? ==> cl.w.call.CallTransfer? && RowFits(cl.w, op.row))
    && (op.Book? || op.MarkFailed? ==> cl.w.call.CallTransfer? && cl.w.tid == Some(op.tid))
  }

  lemma OriginOf(s: State, e: Event, op: Op)
    requires Inv(s) && Enabled(s, e) && OpOf(s, e) == Some(op)
    ensures e.client in s.clients && Origin(s, e.client, op)
  {
    var cl := s.clients[e.client];
    assert ClientOk(s, cl);
    hide Inv, NextLock, Shape, Linked;
    Settlement.LogOrigin(s.db, cl, e.newId, e.now, |s.history|, s.external);
    CreateOrigin(s.db, cl, e.newId, e.now, |s.history|, s.external);
    hide DoStatement;
  }

  lemma CreateOrigin(db: Db, cl: Client, newId: Id, now: nat, clock: nat, external: bool)
    requires Typed(cl)
    ensures var log := DoStatement(db, cl, newId, now, clock, external).log;
            log.Some? && log.value.Create? ==> cl.w.call.CallTransfer? && RowFits(cl.w, log.value.row)
  {
    hide KeyTaken, VersionMatches, NewBalance, Select, RowIs, Publish, NewEntry, ParamsValid, Continues;
    if cl.pc.Insert? {
      hide DoFind, DoLockRow, DoReadAcc, DoLockAcc, DoUpdateAcc, DoConflict, DoCountBooked, DoAddEntry;
    } else {
      hide DoInsert;
    }
  }

  lemma CallersStay(s: State, e: Event)
    requires Inv(s) && RowsHaveCallers(s) && Enabled(s, e)
    ensures RowsHaveCallers(Apply(s, e))
  {
    var s' := Apply(s, e);
    StepCommits(s, e);
    ClientsStay(s, e);
    if OpOf(s, e).Some? { OriginOf(s, e, OpOf(s, e).value); }
    hide Apply, Enabled, OpOf, Inv;
    forall t | t in s'.db.transfers ensures exists d :: Carries(s', d, s'.db.transfers[t]) {
      if t in s.db.transfers {
        ParametersStay(s, e, s', t);
        var d :| Carries(s, d, s.db.transfers[t]);
        assert Carries(s', d, s'.db.transfers[t]);
      } else {
        NewRow(s, e, s', t);
        assert Carries(s', e.client, s'.db.transfers[t]);
      }
    }
  }

  lemma ParametersStay(s: State, e: Event, s': State, t: Id)
    requires Enabled(s, e) && DbInv(s.db) && StepIs(s, e.client, OpOf(s, e), s')
    requires t in s.db.transfers && t in s'.db.transfers
    ensures SameTransfer(s.db.transfers[t], s'.db.transfers[t])
  {
    var op := OpOf(s, e);
    hide OpOf, Enabled;
    if op.Some? && !op.value.Truncate? { ExecRows(s.db, op.value); }
    hide Exec, Guard;
    assert op.Some? && op.value.Truncate? ==> s'.db.transfers == map[] by { TruncatesAll(s, op, s'); }
  }

  lemma TruncatesAll(s: State, op: Option<Op>, s': State)
    requires op.Some? && op.value.Truncate? ==> RowsOk(s.db) && s'.db == Exec(s.db, op.value)
    ensures op.Some? && op.value.Truncate? ==> s'.db.transfers == map[]
  {
  }

  lemma NewRow(s: State, e: Event, s': State, t: Id)
    requires Enabled(s, e) && DbInv(s.db) && StepIs(s, e.client, OpOf(s, e), s')
    requires t !in s.db.transfers && t in s'.db.transfers
    requires OpOf(s, e).Some? ==> e.client in s.clients && Origin(s, e.client, OpOf(s, e).value)
    ensures e.client in s.clients && Carries(s, e.client, s'.db.transfers[t])
  {
    var op := OpOf(s, e);
    hide OpOf, Enabled;
    if op.Some? {
      if !Concerns(op.value, t) { ExecOtherTransfer(s.db, op.value, t); }
      else { CreatedRow(s.db, op.value, t); }
    }
    hide Exec, Guard, DbInv;
  }

  lemma CreatedRow(db: Db, op: Op, t: Id)
    requires RowsOk(db) && Guard(db, op) && Concerns(op, t) && t !in db.transfers && t in Exec(db, op).transfers
    ensures op.Create? && op.tid == t && Exec(db, op).transfers[t] == op.row
  {
  }

  lemma {:induction false} RowsHaveCallersAlways(external: bool, es: seq<Event>)
    requires ValidRun(external, es)
    ensures RowsHaveCallers(StateAfter(external, es))
  {
    hide Enabled, Apply, Inv;
    if es != [] {
      var s, e := LastStep(external, es);
      RowsHaveCallersAlways(external, es[..|es| - 1]);
      CallersStay(s, e);
    }
  }

  // ------------------------------------------------------------------------------------------------ no clashes

  lemma AloneBefore(s: State, e: Event, c: nat)
    requires Enabled(s, e) && AloneWithKey(Apply(s, e), c) && c in s.clients
    ensures AloneWithKey(s, c)
  {
    ClientsStay(s, e);
    hide Apply, Enabled;
  }

  /** Only the lookup by key counts a clash. */
  lemma ClashOnlyByFind(db: Db, cl: Client, newId: Id, now: nat, clock: nat, external: bool)
    requires Typed(cl) && !cl.pc.Find?
    ensures DoStatement(db, cl, newId, now, clock, external).cl.clashed == cl.clashed
  {
    hide DoFind, KeyTaken, VersionMatches, NewBalance, Select;
    hide RowIs, Publish, CommittedOp, NewEntry, ParamsValid, Continues;
    hide ReadAt, UpdateAt;
  }

  lemma OwnRowFits(s: State, c: nat, t: Id)
    requires RowsHaveCallers(s) && AloneWithKey(s, c)
    requires t in s.db.transfers && s.db.transfers[t].key == s.clients[c].w.call.key
    ensures RowFits(s.clients[c].w, s.db.transfers[t])
  {
    var d :| Carries(s, d, s.db.transfers[t]);
  }

  lemma FindMeetsItsOwn(s: State, c: nat)
    requires RowsHaveCallers(s) && AloneWithKey(s, c) && s.clients[c].pc.Find?
    ensures DoFind(s.db, s.clients[c]).cl.clashed == s.clients[c].clashed
  {
    var cl := s.clients[c];
    if KeyTaken(s.db, cl.w.call.key) { OwnRowFits(s, c, ByKey(s.db, cl.w.call.key)); }
    hide KeyTaken, ByKey, RowsHaveCallers, AloneWithKey;
  }

  lemma StepMeetsItsOwn(s: State, e: Event, c: nat)
    requires RowsHaveCallers(s) && AloneWithKey(s, c) && Enabled(s, e)
    ensures c in Apply(s, e).clients && Apply(s, e).clients[c].clashed == s.clients[c].clashed
  {
    ClientsStay(s, e);
    if e.client == c && e.Do? {
      if s.clients[c].pc.Find? { FindMeetsItsOwn(s, c); }
      else { ClashOnlyByFind(s.db, s.clients[c], e.newId, e.now, |s.history|, s.external); hide DoStatement; }
      hide DoFind;
    }
    hide RowsHaveCallers, AloneWithKey, NextLock, Free, Typed, Continues;
  }

  /** A call that is alone with its key never finds it taken with other parameters. */
  lemma {:induction false} AloneNeverClashes(external: bool, es: seq<Event>, c: nat)
    requires ValidRun(external, es) && AloneWithKey(StateAfter(external, es), c)
    ensures StateAfter(external, es).clients[c].clashed == 0
  {
    hide Enabled, Apply, Inv, RowsHaveCallers, AloneWithKey;
    if es == [] {
      NobodyIsAlone(external, c);
    } else {
      var s, e := LastStep(external, es);
      RowsHaveCallersAlways(external, es[..|es| - 1]);
      if c in s.clients {
        AloneBefore(s, e, c);
        AloneNeverClashes(external, es[..|es| - 1], c);
        StepMeetsItsOwn(s, e, c);
      } else {
        BeginsUnclashed(s, e, c);
      }
    }
  }

  lemma NobodyIsAlone(external: bool, c: nat)
    ensures !AloneWithKey(Init(external), c)
  {
  }

  lemma BeginsUnclashed(s: State, e: Event, c: nat)
    requires Enabled(s, e) && c !in s.clients && AloneWithKey(Apply(s, e), c)
    ensures Apply(s, e).clients[c].clashed == 0
  {
    ClientsStay(s, e);
    hide NextLock, Free, DoStatement, Typed;
  }

  /** A Transfer call alone with its key that ends in CONFLICT lost every one of its tries three times to commits of
      other calls on its two accounts while it ran: 3 of them for a call of the API, 15 for a worker of the
      simulator. */
  lemma OwnConflictsAreForeign(external: bool, es: seq<Event>, c: nat)
    requires ValidRun(external, es) && AloneWithKey(StateAfter(external, es), c)
    requires StateAfter(external, es).clients[c].pc == Done(Conflicted)
    ensures var s := StateAfter(external, es);
            var cl := s.clients[c];
            && cl.begun <= |s.history| && 3 * cl.w.call.tries <= Calls.HitsSince(s.history, cl, |s.history|)
            && (cl.w.call.tries == 5 ==> 15 <= Calls.HitsSince(s.history, cl, |s.history|))
            && (forall i :: 0 <= i < |s.history| && s.history[i].client == c ==>
                  !Touches(s.history[i].op, cl.w.call.from) && !Touches(s.history[i].op, cl.w.call.to))
  {
    AloneNeverClashes(external, es, c);
    assert c in StateAfter(external, es).clients && StateAfter(external, es).clients[c].w.call.CallTransfer?;
    hide StateAfter, ValidRun, AloneWithKey, Calls.HitsSince;
    Calls.ConflictsAreForeign(external, es, c);
  }
}
