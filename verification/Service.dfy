/** The services themselves (internal/transfer/transfer.go, internal/account/account.go, and the reset of
    internal/simulation/simulation.go): each method issues its statements one by one, on a database where other clients
    take their turns in between. */
module Service {
  import opened Common
  import opened Ledger
  import opened Bank
  import opened History
  import opened Protocol
  import opened Invariant
  import opened Refinement
  import opened Solo
  import opened Database
  import opened Flow
  import Answers
  import Calls
  import Keys
  import Effects
  import Locks
  import Mutations
  import Outcomes
  import Resets
  import opened Steps
  import opened Replies

  class Service {
    const db: Database
    var versionConflicts: nat

    constructor (db: Database)
      ensures this.db == db && versionConflicts == 0
    {
      this.db, versionConflicts := db, 0;
    }

    /** Session me stands at pc in the middle of its call. */
    ghost predicate Stands(me: nat, pc: Pc)
      reads db
    {
      db.Valid() && !db.strangers(me) && me in db.sessions && db.sessions[me].pc == pc
    }

    /** Session me is over. */
    ghost predicate Over(me: nat)
      reads db
    {
      db.Valid() && me in db.sessions && db.sessions[me].pc.Done?
    }

    /** One statement. */
    method Query(me: nat) returns (ok: bool)
      requires db.Valid() && !db.strangers(me) && me in db.sessions && !db.sessions[me].pc.Done?
      modifies db
      ensures db.Valid() && me in db.sessions && old(db.run) <= db.run && old(db.history) <= db.history
      ensures ok ==> Flows(old(db.sessions[me]), db.sessions[me], db.external)
      ensures !ok ==> Stops(old(db.sessions[me]), db.sessions[me])
    {
      AtTyped(db.external, db.run, db.Now(), me);
      ghost var before := db.sessions[me];
      ok := db.Execute(me);
      if ok { StatementFlows(before, db.sessions[me], db.external); }
      hide At, Excused, Ran, Flows;
    }

    /** readAccount for both accounts, in identifier order. */
    method ReadAccounts(me: nat) returns (ok: bool)
      requires Stands(me, ReadAcc(0)) && db.sessions[me].w.call.CallTransfer?
      modifies db
      ensures db.Valid() && me in db.sessions && old(db.run) <= db.run && old(db.history) <= db.history
      ensures if ok then Goes(old(db.sessions[me]), db.sessions[me], UpdateAcc(0))
              else Goes(old(db.sessions[me]), db.sessions[me], MarkFail) || Stops(old(db.sessions[me]), db.sessions[me])
    {
      hide At, Excused, MutateFlow, RowFlow, OneStepFlow;
      ghost var before := db.sessions[me];
      ok := true;
      var n := 0;
      while ok && n < 2
        invariant 0 <= n <= 2 && db.Valid() && me in db.sessions && Steady(before, db.sessions[me])
        invariant ok ==> db.sessions[me].pc == if n < 2 then ReadAcc(n) else UpdateAcc(0)
        invariant !ok ==> Goes(before, db.sessions[me], MarkFail) || Stops(before, db.sessions[me])
        invariant old(db.run) <= db.run && old(db.history) <= db.history
        decreases 2 - n, ok
      {
        ok := Query(me);
        ok := ok && db.sessions[me].pc != MarkFail;
        n := n + 1;
      }
    }

    /** optimisticUpdate for both accounts, in identifier order. */
    method UpdateAccounts(me: nat) returns (ok: bool)
      requires Stands(me, UpdateAcc(0)) && db.sessions[me].w.call.CallTransfer?
      modifies db
      ensures db.Valid() && me in db.sessions && old(db.run) <= db.run && old(db.history) <= db.history
      ensures if ok then Goes(old(db.sessions[me]), db.sessions[me], AddEntry(0))
              else Attempted(old(db.sessions[me]), db.sessions[me])
    {
      hide At, Excused, MutateFlow, RowFlow, OneStepFlow;
      ghost var before := db.sessions[me];
      ok := true;
      var n := 0;
      while ok && n < 2
        invariant 0 <= n <= 2 && db.Valid() && me in db.sessions
        invariant if ok then Goes(before, db.sessions[me], if n < 2 then UpdateAcc(n) else AddEntry(0))
                  else Attempted(before, db.sessions[me])
        invariant old(db.run) <= db.run && old(db.history) <= db.history
        decreases 2 - n, ok
      {
        ok := Query(me);
        ok := ok && (db.sessions[me].pc == UpdateAcc(1) || db.sessions[me].pc == AddEntry(0));
        n := n + 1;
      }
    }

    /** ledger.Append for both accounts. */
    method AppendEntries(me: nat) returns (ok: bool)
      requires Stands(me, AddEntry(0)) && db.sessions[me].w.call.CallTransfer?
      modifies db
      ensures db.Valid() && me in db.sessions && old(db.run) <= db.run && old(db.history) <= db.history
      ensures if ok then Goes(old(db.sessions[me]), db.sessions[me], if db.external then CommitTx else WriteRow)
              else Stops(old(db.sessions[me]), db.sessions[me])
    {
      hide At, Excused, MutateFlow, RowFlow, OneStepFlow;
      ok := Query(me);
      if ok { ok := Query(me); }
    }

    /** SELECT ... FOR UPDATE of the transfer, and the count of its entries. */
    method LockUnbooked(me: nat) returns (ok: bool)
      requires Stands(me, LockRow) && db.sessions[me].w.call.CallTransfer?
      modifies db
      ensures db.Valid() && me in db.sessions && old(db.run) <= db.run && old(db.history) <= db.history
      ensures if ok then Goes(old(db.sessions[me]), db.sessions[me], ReadAcc(0))
              else Goes(old(db.sessions[me]), db.sessions[me], MarkFail) || Stops(old(db.sessions[me]), db.sessions[me])
    {
      hide At, Excused, MutateFlow, RowFlow, OneStepFlow;
      ok := Query(me);
      if !ok || db.sessions[me].pc != CountBooked { return false; }
      ok := Query(me);
      ok := ok && db.sessions[me].pc == ReadAcc(0);
    }

    /** UPDATE transfers SET status = 'SETTLED' in the internal mode, and COMMIT. */
    method SettleAndCommit(me: nat)
      requires Stands(me, if db.external then CommitTx else WriteRow) && db.sessions[me].w.call.CallTransfer?
      modifies db
      ensures db.Valid() && me in db.sessions && old(db.run) <= db.run && old(db.history) <= db.history
      ensures Stops(old(db.sessions[me]), db.sessions[me])
    {
      hide At, Excused, MutateFlow, RowFlow, OneStepFlow;
      var ok := true;
      if !db.external { ok := Query(me); }
      if ok { ok := Query(me); }
    }

    /** Both accounts are read and the balance suffices: write the booking. */
    method Book(me: nat)
      requires Stands(me, UpdateAcc(0)) && db.sessions[me].w.call.CallTransfer?
      modifies db
      ensures db.Valid() && me in db.sessions && old(db.run) <= db.run && old(db.history) <= db.history
      ensures Attempted(old(db.sessions[me]), db.sessions[me])
    {
      hide At, Excused, MutateFlow, RowFlow, OneStepFlow;
      var ok := UpdateAccounts(me);
      if ok {
        ok := AppendEntries(me);
        if ok { SettleAndCommit(me); }
      }
    }

    method ReadAndBook(me: nat)
      requires Stands(me, ReadAcc(0)) && db.sessions[me].w.call.CallTransfer?
      modifies db
      ensures db.Valid() && me in db.sessions && old(db.run) <= db.run && old(db.history) <= db.history
      ensures Attempted(old(db.sessions[me]), db.sessions[me])
    {
      hide At, Excused, MutateFlow, RowFlow, OneStepFlow;
      var ok := ReadAccounts(me);
      if ok { Book(me); }
    }

    /** One attempt at booking: lock and read the transfer, count its entries, read both accounts in order, update them
        in order, add both entries, settle in the internal mode, commit. */
    method ProcessOnce(me: nat)
      requires Stands(me, LockRow) && db.sessions[me].w.call.CallTransfer?
      modifies db
      ensures db.Valid() && me in db.sessions && old(db.run) <= db.run && old(db.history) <= db.history
      ensures Attempted(old(db.sessions[me]), db.sessions[me])
    {
      hide At, Excused, MutateFlow, RowFlow, OneStepFlow;
      var ok := LockUnbooked(me);
      if ok { ReadAndBook(me); }
    }

    /** Up to three attempts; whoever finds a transfer that cannot be booked marks it FAILED afterwards. */
    method Process(me: nat)
      requires Stands(me, LockRow) && db.sessions[me].w.call.CallTransfer?
      modifies this, db
      ensures db.Valid() && me in db.sessions && old(db.run) <= db.run && old(db.history) <= db.history
      ensures Answered(old(db.sessions[me]), db.sessions[me])
      ensures versionConflicts - old(versionConflicts) == Calls.Lost(db.sessions[me]) - Calls.Lost(old(db.sessions[me]))
    {
      hide At, Excused, MutateFlow, RowFlow, OneStepFlow;
      ghost var before := db.sessions[me];
      while db.sessions[me].pc == LockRow
        invariant db.Valid() && me in db.sessions && old(db.run) <= db.run && old(db.history) <= db.history
        invariant if db.sessions[me].pc == LockRow then SameCall(before, db.sessions[me])
                  else Answered(before, db.sessions[me])
        invariant versionConflicts - old(versionConflicts) == Calls.Lost(db.sessions[me]) - Calls.Lost(before)
        decreases if db.sessions[me].pc == LockRow then MAX_RETRIES - db.sessions[me].attempt else 0
      {
        BelowMax(db.external, db.run, db.Now(), me);
        ProcessOnce(me);
        var pc := db.sessions[me].pc;
        if pc == LockRow || pc == Done(Conflicted) || pc == Validate {
          versionConflicts := versionConflicts + 1;
        } else if pc == MarkFail {
          var _ := Query(me);
        }
      }
    }

    /** INSERT of the transfer, or the one that has its key already. */
    method AcquireTransfer(me: nat)
      requires Stands(me, Insert) && db.sessions[me].w.call.CallTransfer?
      modifies db
      ensures db.Valid() && me in db.sessions && old(db.run) <= db.run && old(db.history) <= db.history
      ensures var cl, cl' := old(db.sessions[me]), db.sessions[me];
              Enters(cl, cl') || Stops(cl, cl') || Clashes(cl, cl')
    {
      hide At, Excused, MutateFlow, RowFlow, OneStepFlow;
      var ok := Query(me);
      if ok && db.sessions[me].pc == Find { ok := Query(me); }
    }

    /** One call of Transfer by session me, from the checks of its parameters to its answer. */
    method TransferOnce(me: nat)
      requires Stands(me, Validate) && db.sessions[me].w.call.CallTransfer? && db.sessions[me].attempt == 0
      modifies this, db
      ensures db.Valid() && me in db.sessions && old(db.run) <= db.run && old(db.history) <= db.history
      ensures Answered(old(db.sessions[me]), db.sessions[me])
      ensures versionConflicts - old(versionConflicts) == Calls.Lost(db.sessions[me]) - Calls.Lost(old(db.sessions[me]))
    {
      hide At, Excused, MutateFlow, RowFlow, OneStepFlow;
      var ok := Query(me);
      if !ok || db.sessions[me].pc.Done? { return; }
      AcquireTransfer(me);
      if db.sessions[me].pc == LockRow { Process(me); }
    }

    /** Transfer, called once by the API, or up to five times by a worker of the simulator as long as it is told
        CONFLICT. Whatever the other clients do: nil means that the transfer of the key is booked, exactly once over the
        whole history; an error means that this call has committed nothing but the row of its transfer and its FAILED
        mark; a CONFLICT was caused by three commits of others for every try in which the key was its own, which are all
        of its tries if it is alone with its key; and versionConflicts has counted the attempts that it lost. */
    method Transfer(me: nat, from: Id, to: Id, amount: int, key: string, tries: nat) returns (result: Result)
      requires db.Valid() && !db.strangers(me) && me !in db.sessions && IsInt64(amount) && tries > 0
      modifies this, db
      ensures Over(me) && db.sessions[me].pc == Done(result)
      ensures db.sessions[me].w.call == CallTransfer(from, to, amount, key, tries)
      ensures old(db.run) <= db.run && old(db.history) <= db.history && db.sessions[me].begun == old(|db.history|)
      ensures result.Accepted? ==> db.sessions[me].w.tid.Some? && Bookings(db.history, db.sessions[me].w.tid.value) == 1
      ensures !result.Accepted? ==> forall i :: 0 <= i < |db.history| && db.history[i].client == me ==>
                db.history[i].op.Create? || db.history[i].op.MarkFailed?
      ensures result == Conflicted ==>
                var cl := db.sessions[me];
                cl.begun <= |db.history| && 3 * (tries - cl.clashed) <= Calls.HitsSince(db.history, cl, |db.history|)
      ensures result == Conflicted && Keys.AloneWithKey(db.Now(), me) ==>
                && 3 * tries <= Calls.HitsSince(db.history, db.sessions[me], |db.history|)
                && (tries == 5 ==> 15 <= Calls.HitsSince(db.history, db.sessions[me], |db.history|))
      ensures versionConflicts - old(versionConflicts) == Calls.Lost(db.sessions[me])
      ensures WellAnswered(old(db.Now()), db.Now(), me, CallTransfer(from, to, amount, key, tries), result,
                           db.Blamed(me))
      ensures !db.external && result.Accepted? ==> result == Accepted(Settled)
      ensures result == Invalid(false) <==> key == "" || from == to || amount <= 0
    {
      hide At, WellAnswered, Excused, HasCause, Hurt;
      var call := CallTransfer(from, to, amount, key, tries);
      ghost var run0, s0 := db.run, db.Now();
      db.Begin(me, call);
      BeganAt(db.external, db.run, db.Now(), me);
      ghost var run, began := db.run, db.Now();
      RunTries(me);
      result := db.sessions[me].pc.result;
      BegunThen(db.external, run, began, db.run, db.Now(), me);
      TransferAnswers(db.external, db.run, db.Now(), me);
      db.HurtIsBlamed(me);
      AnswersWell(db.external, run0, s0, call, db.run, db.Now(), me, db.Blamed(me));
      PlainAnswers(db.external, db.run, db.Now(), me);
    }

    /** One call of Transfer after the other, as long as they end in CONFLICT and tries are left. */
    method RunTries(me: nat)
      requires Stands(me, Validate) && db.sessions[me].w.call.CallTransfer? && db.sessions[me].attempt == 0
      requires db.sessions[me].outer < db.sessions[me].w.call.tries
      modifies this, db
      ensures Over(me) && old(db.run) <= db.run && old(db.history) <= db.history
      ensures db.sessions[me].w.call == old(db.sessions[me].w.call)
      ensures versionConflicts - old(versionConflicts) == Calls.Lost(db.sessions[me]) - Calls.Lost(old(db.sessions[me]))
    {
      hide At, Excused, Calls.Lost;
      ghost var call := db.sessions[me].w.call;
      ghost var before := db.sessions[me];
      while db.sessions[me].pc == Validate
        invariant db.Valid() && me in db.sessions && old(db.run) <= db.run && old(db.history) <= db.history
        invariant db.sessions[me].w.call == call && (db.sessions[me].pc == Validate || db.sessions[me].pc.Done?)
        invariant db.sessions[me].outer < call.tries
                  && (db.sessions[me].pc == Validate ==> db.sessions[me].attempt == 0)
        invariant versionConflicts - old(versionConflicts) == Calls.Lost(db.sessions[me]) - Calls.Lost(before)
        decreases if db.sessions[me].pc == Validate then call.tries - db.sessions[me].outer else 0
      {
        TransferOnce(me);
      }
    }

    // ------------------------------------------------------------------------------- deposits and withdrawals

    /** The entry and COMMIT. */
    method AppendAndCommit(me: nat)
      requires Stands(me, AddEntry(0)) && db.sessions[me].w.call.CallMutate?
      modifies db
      ensures db.Valid() && me in db.sessions && old(db.run) <= db.run && old(db.history) <= db.history
      ensures Finishes(old(db.sessions[me]), db.sessions[me])
    {
      hide At, Excused, TransferFlow, RowFlow, OneStepFlow;
      var ok := Query(me);
      if ok { ok := Query(me); }
    }

    /** Update the account if its version still matches, add the entry, commit. */
    method WriteBalance(me: nat)
      requires Stands(me, UpdateAcc(0)) && db.sessions[me].w.call.CallMutate?
      modifies db
      ensures db.Valid() && me in db.sessions && old(db.run) <= db.run && old(db.history) <= db.history
      ensures Finishes(old(db.sessions[me]), db.sessions[me])
              || Retries(old(db.sessions[me]), db.sessions[me], ReadAcc(0))
    {
      hide At, Excused, TransferFlow, RowFlow, OneStepFlow;
      var ok := Query(me);
      if ok && db.sessions[me].pc == AddEntry(0) { AppendAndCommit(me); }
    }

    /** One attempt: read the account, write its balance. */
    method TryMutate(me: nat)
      requires Stands(me, ReadAcc(0)) && db.sessions[me].w.call.CallMutate?
      modifies db
      ensures db.Valid() && me in db.sessions && old(db.run) <= db.run && old(db.history) <= db.history
      ensures Finishes(old(db.sessions[me]), db.sessions[me])
              || Retries(old(db.sessions[me]), db.sessions[me], ReadAcc(0))
    {
      hide At, Excused, TransferFlow, RowFlow, OneStepFlow;
      var ok := Query(me);
      if ok && db.sessions[me].pc == UpdateAcc(0) { WriteBalance(me); }
    }

    /** account.mutate: three attempts. A completed call has committed exactly its one balance change, any other
        nothing. */
    method Mutate(me: nat, a: Id, delta: int, typ: EntryType) returns (result: Result)
      requires db.Valid() && !db.strangers(me) && me !in db.sessions && CallOk(CallMutate(a, delta, typ))
      modifies db
      ensures Over(me) && db.sessions[me].pc == Done(result) && old(db.run) <= db.run && old(db.history) <= db.history
      ensures Effects.Own(db.history, me) == if result == Completed then [Op.Mutate(a, delta)] else []
      ensures WellAnswered(old(db.Now()), db.Now(), me, CallMutate(a, delta, typ), result, db.Blamed(me))
      ensures result == Conflicted ==> Changes(old(db.history), a) + 3 <= Changes(db.history, a)
    {
      hide At, WellAnswered, Excused, HasCause, Hurt;
      var call := CallMutate(a, delta, typ);
      ghost var run0, s0 := db.run, db.Now();
      db.Begin(me, call);
      ghost var began := db.run;
      while db.sessions[me].pc == ReadAcc(0)
        invariant db.Valid() && me in db.sessions && old(db.run) <= db.run && old(db.history) <= db.history
        invariant db.sessions[me].w.call == call && (db.sessions[me].pc == ReadAcc(0) || db.sessions[me].pc.Done?)
        invariant began <= db.run
        decreases if db.sessions[me].pc == ReadAcc(0) then MAX_RETRIES - db.sessions[me].attempt else 0
      {
        BelowMax(db.external, db.run, db.Now(), me);
        TryMutate(me);
      }
      result := db.sessions[me].pc.result;
      CommitsWhatItSays(db.external, db.run, db.Now(), me);
      db.HurtIsBlamed(me);
      AnswersWell(db.external, run0, s0, call, db.run, db.Now(), me, db.Blamed(me));
      ThreeChanges(db.external, run0, s0, call, db.run, db.Now(), me);
      assert Effects.IsFor(call, Op.Mutate(a, delta));
    }

    method Deposit(me: nat, a: Id, amount: int) returns (result: Result)
      requires db.Valid() && !db.strangers(me) && me !in db.sessions && ValidAmount(amount)
      modifies db
      ensures Over(me) && old(db.run) <= db.run && old(db.history) <= db.history
      ensures Effects.Own(db.history, me) == if result == Completed then [Op.Mutate(a, amount)] else []
      ensures WellAnswered(old(db.Now()), db.Now(), me, CallMutate(a, amount, Credit), result, db.Blamed(me))
      ensures result == Conflicted ==> Changes(old(db.history), a) + 3 <= Changes(db.history, a)
    {
      result := Mutate(me, a, amount, Credit);
    }

    method Withdraw(me: nat, a: Id, amount: int) returns (result: Result)
      requires db.Valid() && !db.strangers(me) && me !in db.sessions && ValidAmount(amount)
      modifies db
      ensures Over(me) && old(db.run) <= db.run && old(db.history) <= db.history
      ensures Effects.Own(db.history, me) == if result == Completed then [Op.Mutate(a, -amount)] else []
      ensures WellAnswered(old(db.Now()), db.Now(), me, CallMutate(a, -amount, Debit), result, db.Blamed(me))
      ensures result == Conflicted ==> Changes(old(db.history), a) + 3 <= Changes(db.history, a)
    {
      result := Mutate(me, a, -amount, Debit);
    }

    // ----------------------------------------------------------------------------------- settlement and failure

    /** SELECT status ... FOR UPDATE, EXISTS of its entries while it is PENDING, and the UPDATE. */
    method Confirm(me: nat)
      requires Stands(me, LockRow) && db.sessions[me].w.call.CallSettle?
      modifies db
      ensures db.Valid() && me in db.sessions && old(db.run) <= db.run && old(db.history) <= db.history
      ensures db.sessions[me].w.call == old(db.sessions[me].w.call)
              && (db.sessions[me].pc.Done? || db.sessions[me].pc == CommitTx)
    {
      hide At, Excused, TransferFlow, MutateFlow, OneStepFlow;
      var ok := Query(me);
      if ok && db.sessions[me].pc == CountBooked { ok := Query(me); }
      if ok && db.sessions[me].pc == WriteRow { ok := Query(me); }
    }

    /** COMMIT, and the SELECT that answers the caller, if the call has come so far. */
    method CommitAndFetch(me: nat)
      requires db.Valid() && !db.strangers(me) && me in db.sessions
               && (db.sessions[me].w.call.CallSettle? || db.sessions[me].w.call.CallFail?)
      requires db.sessions[me].pc.Done? || db.sessions[me].pc == CommitTx
      modifies db
      ensures Over(me) && old(db.run) <= db.run && old(db.history) <= db.history
      ensures db.sessions[me].w.call == old(db.sessions[me].w.call)
    {
      hide At, Excused, TransferFlow, MutateFlow, OneStepFlow;
      if db.sessions[me].pc == CommitTx {
        var ok := Query(me);
        if ok { ok := Query(me); }
      }
    }

    /** The answer was true of the bank at a moment of the call: a completed one saw the transfer SETTLED, a refusal
        what it reports. A refusal has committed nothing; otherwise at most the settlement, with its reference. */
    method Settle(me: nat, t: Id, ref: string) returns (result: Result)
      requires db.Valid() && !db.strangers(me) && me !in db.sessions
      modifies db
      ensures Over(me) && db.sessions[me].pc == Done(result) && old(db.run) <= db.run && old(db.history) <= db.history
      ensures var ops := Effects.Own(db.history, me);
              && (Effects.Refuses(result) ==> ops == [])
              && (ops == [] || (|ops| == 1 && ops[0].Confirm? && ops[0].tid == t
                                && (ref != "" ==> ops[0].ref == Some(ref)) && (ref == "" ==> ops[0].ref == None)))
      ensures WellAnswered(old(db.Now()), db.Now(), me, CallSettle(t, ref), result, db.Blamed(me))
    {
      hide At, WellAnswered, Excused, HasCause, Hurt;
      ghost var run0, s0 := db.run, db.Now();
      db.Begin(me, CallSettle(t, ref));
      Confirm(me);
      CommitAndFetch(me);
      result := db.sessions[me].pc.result;
      db.HurtIsBlamed(me);
      AnswersWell(db.external, run0, s0, CallSettle(t, ref), db.run, db.Now(), me, db.Blamed(me));
      CommitsWhatItSays(db.external, db.run, db.Now(), me);
    }

    /** Both accounts FOR UPDATE, in identifier order. */
    method LockAccounts(me: nat) returns (ok: bool)
      requires Stands(me, LockAcc(0)) && db.sessions[me].w.call.CallFail?
      modifies db
      ensures db.Valid() && me in db.sessions && old(db.run) <= db.run && old(db.history) <= db.history
      ensures if ok then Goes(old(db.sessions[me]), db.sessions[me], UpdateAcc(0))
              else Finishes(old(db.sessions[me]), db.sessions[me])
    {
      hide At, Excused, TransferFlow, MutateFlow, OneStepFlow;
      ghost var before := db.sessions[me];
      ok := true;
      var n := 0;
      while ok && n < 2
        invariant 0 <= n <= 2 && db.Valid() && me in db.sessions && old(db.run) <= db.run
                  && old(db.history) <= db.history
        invariant if ok then Goes(before, db.sessions[me], if n < 2 then LockAcc(n) else UpdateAcc(0))
                  else Finishes(before, db.sessions[me])
        decreases 2 - n, ok
      {
        ok := Query(me);
        ok := ok && !db.sessions[me].pc.Done?;
        n := n + 1;
      }
    }

    /** The optimistic updates of a reversal: from, then to. */
    method UpdateBack(me: nat) returns (ok: bool)
      requires Stands(me, UpdateAcc(0)) && db.sessions[me].w.call.CallFail?
      modifies db
      ensures db.Valid() && me in db.sessions && old(db.run) <= db.run && old(db.history) <= db.history
      ensures if ok then Goes(old(db.sessions[me]), db.sessions[me], AddEntry(0))
              else Finishes(old(db.sessions[me]), db.sessions[me])
    {
      hide At, Excused, TransferFlow, MutateFlow, OneStepFlow;
      ok := Query(me);
      ok := ok && db.sessions[me].pc == UpdateAcc(1);
      if ok {
        ok := Query(me);
        ok := ok && db.sessions[me].pc == AddEntry(0);
      }
    }

    method AppendBack(me: nat) returns (ok: bool)
      requires Stands(me, AddEntry(0)) && db.sessions[me].w.call.CallFail?
      modifies db
      ensures db.Valid() && me in db.sessions && old(db.run) <= db.run && old(db.history) <= db.history
      ensures if ok then Goes(old(db.sessions[me]), db.sessions[me], WriteRow)
              else Finishes(old(db.sessions[me]), db.sessions[me])
    {
      hide At, Excused, TransferFlow, MutateFlow, OneStepFlow;
      ok := Query(me);
      if ok { ok := Query(me); }
    }

    /** The updates and the entries of a reversal. */
    method PostBack(me: nat) returns (ok: bool)
      requires Stands(me, UpdateAcc(0)) && db.sessions[me].w.call.CallFail?
      modifies db
      ensures db.Valid() && me in db.sessions && old(db.run) <= db.run && old(db.history) <= db.history
      ensures if ok then Goes(old(db.sessions[me]), db.sessions[me], WriteRow)
              else Finishes(old(db.sessions[me]), db.sessions[me])
    {
      hide At, Excused, TransferFlow, MutateFlow, OneStepFlow;
      ok := UpdateBack(me);
      if ok { ok := AppendBack(me); }
    }

    /** The updates, the entries and the status. */
    method PostAndMark(me: nat)
      requires Stands(me, UpdateAcc(0)) && db.sessions[me].w.call.CallFail?
      modifies db
      ensures db.Valid() && me in db.sessions && old(db.run) <= db.run && old(db.history) <= db.history
      ensures Finishes(old(db.sessions[me]), db.sessions[me]) || Goes(old(db.sessions[me]), db.sessions[me], CommitTx)
    {
      hide At, Excused, TransferFlow, MutateFlow, OneStepFlow;
      var ok := PostBack(me);
      if ok { ok := Query(me); }
    }

    /** reverse, once the transfer is known to be booked; then the status. */
    method Reverse(me: nat)
      requires Stands(me, LockAcc(0)) && db.sessions[me].w.call.CallFail?
      modifies db
      ensures db.Valid() && me in db.sessions && old(db.run) <= db.run && old(db.history) <= db.history
      ensures Finishes(old(db.sessions[me]), db.sessions[me]) || Goes(old(db.sessions[me]), db.sessions[me], CommitTx)
    {
      hide At, Excused, TransferFlow, MutateFlow, OneStepFlow;
      var ok := LockAccounts(me);
      if ok { PostAndMark(me); }
    }

    /** SELECT ... FOR UPDATE, the count of its entries while it is PENDING, the reversal of a booked one, the
        status. */
    method Undo(me: nat)
      requires Stands(me, LockRow) && db.sessions[me].w.call.CallFail?
      modifies db
      ensures db.Valid() && me in db.sessions && old(db.run) <= db.run && old(db.history) <= db.history
      ensures db.sessions[me].w.call == old(db.sessions[me].w.call)
              && (db.sessions[me].pc.Done? || db.sessions[me].pc == CommitTx)
    {
      hide At, Excused, TransferFlow, MutateFlow, OneStepFlow;
      var ok := Query(me);
      if ok && db.sessions[me].pc == CountBooked { UndoPending(me); }
    }

    method UndoPending(me: nat)
      requires Stands(me, CountBooked) && db.sessions[me].w.call.CallFail?
      modifies db
      ensures db.Valid() && me in db.sessions && old(db.run) <= db.run && old(db.history) <= db.history
      ensures db.sessions[me].w.call == old(db.sessions[me].w.call)
              && (db.sessions[me].pc.Done? || db.sessions[me].pc == CommitTx)
    {
      hide At, Excused, TransferFlow, MutateFlow, OneStepFlow;
      var ok := Query(me);
      if ok && db.sessions[me].pc == LockAcc(0) { Reverse(me); }
      else if ok && db.sessions[me].pc == WriteRow { ok := Query(me); }
    }

    /** The answer was true of the bank at a moment of the call: a completed one saw the transfer FAILED, a refusal what
        it reports. A refusal has committed nothing; otherwise at most the reversal of a booked transfer or the end of
        an unbooked one. */
    method Fail(me: nat, t: Id) returns (result: Result)
      requires db.Valid() && !db.strangers(me) && me !in db.sessions
      modifies db
      ensures Over(me) && db.sessions[me].pc == Done(result) && old(db.run) <= db.run && old(db.history) <= db.history
      ensures result != VersionConflict
      ensures var ops := Effects.Own(db.history, me);
              && (Effects.Refuses(result) ==> ops == [])
              && (ops == [] || (|ops| == 1 && (ops[0].Reverse? || ops[0].Void?) && ops[0].tid == t))
      ensures WellAnswered(old(db.Now()), db.Now(), me, CallFail(t), result, db.Blamed(me))
    {
      hide At, WellAnswered, Excused, HasCause, Hurt;
      ghost var run0, s0 := db.run, db.Now();
      db.Begin(me, CallFail(t));
      Undo(me);
      CommitAndFetch(me);
      result := db.sessions[me].pc.result;
      db.HurtIsBlamed(me);
      AnswersWell(db.external, run0, s0, CallFail(t), db.run, db.Now(), me, db.Blamed(me));
      CommitsWhatItSays(db.external, db.run, db.Now(), me);
      NeverConflicts(db.external, db.run, db.Now(), me);
    }

    // ------------------------------------------------------------------------------------------- accounts and reset

    /** account.Open, once its account number is unused. */
    method OpenAccount(me: nat) returns (result: Result)
      requires db.Valid() && !db.strangers(me) && me !in db.sessions
      modifies db
      ensures Over(me) && db.sessions[me].pc == Done(result) && old(db.run) <= db.run && old(db.history) <= db.history
      ensures var ops := Effects.Own(db.history, me);
              if result == Completed then |ops| == 1 && ops[0].Open? else ops == []
      ensures WellAnswered(old(db.Now()), db.Now(), me, CallOpen, result, db.Blamed(me))
    {
      hide At, WellAnswered, Excused, HasCause, Hurt;
      ghost var run0, s0 := db.run, db.Now();
      db.Begin(me, CallOpen);
      var ok := Query(me);
      result := db.sessions[me].pc.result;
      db.HurtIsBlamed(me);
      AnswersWell(db.external, run0, s0, CallOpen, db.run, db.Now(), me, db.Blamed(me));
      CommitsWhatItSays(db.external, db.run, db.Now(), me);
    }

    method SetStatus(me: nat, a: Id, status: AccountStatus) returns (result: Result)
      requires db.Valid() && !db.strangers(me) && me !in db.sessions
      modifies db
      ensures Over(me) && db.sessions[me].pc == Done(result) && old(db.run) <= db.run && old(db.history) <= db.history
      ensures Effects.Own(db.history, me) == if result == Completed then [Op.SetStatus(a, status)] else []
      ensures WellAnswered(old(db.Now()), db.Now(), me, CallSetStatus(a, status), result, db.Blamed(me))
    {
      hide At, WellAnswered, Excused, HasCause, Hurt;
      ghost var run0, s0 := db.run, db.Now();
      db.Begin(me, CallSetStatus(a, status));
      var ok := Query(me);
      result := db.sessions[me].pc.result;
      db.HurtIsBlamed(me);
      AnswersWell(db.external, run0, s0, CallSetStatus(a, status), db.run, db.Now(), me, db.Blamed(me));
      CommitsWhatItSays(db.external, db.run, db.Now(), me);
    }

    /** One LOCK TABLE, which may deadlock or time out. */
    method LockAllTables(me: nat)
      requires Stands(me, LockTables) && db.sessions[me].w.call.CallReset?
      modifies db
      ensures db.Valid() && me in db.sessions && old(db.run) <= db.run && old(db.history) <= db.history
      ensures Goes(old(db.sessions[me]), db.sessions[me], TruncateAll)
              || Finishes(old(db.sessions[me]), db.sessions[me])
              || Retries(old(db.sessions[me]), db.sessions[me], LockTables)
    {
      hide At, Excused, TransferFlow, MutateFlow, RowFlow;
      var locked := db.LockTable(me);
      if locked { var ok := Query(me); }
    }

    method LockTablesWithRetry(me: nat)
      requires Stands(me, LockTables) && db.sessions[me].w.call.CallReset?
      modifies db
      ensures db.Valid() && me in db.sessions && old(db.run) <= db.run && old(db.history) <= db.history
      ensures db.sessions[me].w.call == CallReset && (db.sessions[me].pc == TruncateAll || db.sessions[me].pc.Done?)
    {
      hide At, Excused, TransferFlow, MutateFlow, RowFlow;
      while db.sessions[me].pc == LockTables
        invariant db.Valid() && me in db.sessions && old(db.run) <= db.run && old(db.history) <= db.history
        invariant db.sessions[me].w.call == CallReset
        invariant db.sessions[me].pc == LockTables || db.sessions[me].pc == TruncateAll || db.sessions[me].pc.Done?
        decreases if db.sessions[me].pc == LockTables then MAX_RETRIES - db.sessions[me].attempt else 0
      {
        BelowMax(db.external, db.run, db.Now(), me);
        LockAllTables(me);
      }
    }

    /** TRUNCATE and COMMIT, if the tables are locked. */
    method TruncateLocked(me: nat)
      requires db.Valid() && !db.strangers(me) && me in db.sessions && db.sessions[me].w.call == CallReset
      requires db.sessions[me].pc == TruncateAll || db.sessions[me].pc.Done?
      modifies db
      ensures Over(me) && old(db.run) <= db.run && old(db.history) <= db.history && db.sessions[me].w.call == CallReset
    {
      hide At, Excused, TransferFlow, MutateFlow, RowFlow;
      if db.sessions[me].pc == TruncateAll { var ok := Query(me); }
    }

    /** truncateWithRetry: LOCK TABLE is tried three times in all. */
    method TruncateWithRetry(me: nat) returns (result: Result)
      requires db.Valid() && !db.strangers(me) && me !in db.sessions
      modifies db
      ensures Over(me) && db.sessions[me].pc == Done(result) && old(db.run) <= db.run && old(db.history) <= db.history
      ensures Effects.Own(db.history, me) == if result == Completed then [Op.Truncate] else []
      ensures Locks.LockFailures(db.run, me) <= 3 && (result == Completed || result == Internal)
      ensures result == Completed ==> Locks.LockFailures(db.run, me) < 3
      ensures result == Internal ==> Locks.LockFailures(db.run, me) == 3 || Outcomes.Broken(db.run, me)
      ensures result == Internal ==> db.Blamed(me)
      ensures WellAnswered(old(db.Now()), db.Now(), me, CallReset, result, db.Blamed(me))
    {
      hide At, WellAnswered, Excused, HasCause, Hurt, Outcomes.Broken, Locks.LockFailures, Effects.Own;
      ghost var run0, s0 := db.run, db.Now();
      db.Begin(me, CallReset);
      LockTablesWithRetry(me);
      TruncateLocked(me);
      result := db.sessions[me].pc.result;
      db.HurtIsBlamed(me);
      AnswersWell(db.external, run0, s0, CallReset, db.run, db.Now(), me, db.Blamed(me));
      BoundedRetries(db.external, db.run, db.Now(), me);
    }
  }

  lemma BoundedRetries(external: bool, run: seq<Event>, s: State, me: nat)
    requires At(external, run, s) && me in s.clients && s.clients[me].w.call.CallReset?
    requires s.clients[me].pc.Done?
    ensures var n, result := Locks.LockFailures(run, me), s.clients[me].pc.result;
            && n <= 3 && (result == Completed || result == Internal) && (result == Completed ==> n < 3)
            && (result == Internal ==> (n == 3 || Outcomes.Broken(run, me)) && Hurt(run, me))
    ensures Effects.Own(s.history, me) == if s.clients[me].pc.result == Completed then [Op.Truncate] else []
  {
    CommitsWhatItSays(external, run, s, me);
    Locks.ResetRetriesAreBounded(external, run, me);
    Resets.ResetTriesThreeTimes(external, run, me);
    if Locks.LockFailures(run, me) > 0 { Resets.FailuresHurt(run, me); }
    if Outcomes.Broken(run, me) { BrokenIsHurt(run, me); }
    hide Hurt, StateAfter, ValidRun, Outcomes.Broken, Locks.LockFailures, Effects.Own;
  }

  lemma CommitsWhatItSays(external: bool, run: seq<Event>, s: State, me: nat)
    requires At(external, run, s) && me in s.clients && s.clients[me].pc.Done? && !s.clients[me].w.call.CallTransfer?
    ensures var cl, ops := s.clients[me], Effects.Own(s.history, me);
            && |ops| <= 1 && (ops != [] ==> Effects.IsFor(cl.w.call, ops[0]))
            && (!cl.w.call.CallSettle? && !cl.w.call.CallFail? ==> (cl.pc.result == Completed <==> |ops| == 1))
            && (Effects.Refuses(cl.pc.result) ==> ops == [])
  {
    Effects.CallsCommitExactlyWhatTheySay(external, run, me);
  }

  lemma BegunThen(external: bool, run: seq<Event>, s: State, run': seq<Event>, s': State, me: nat)
    requires At(external, run, s) && At(external, run', s') && run <= run' && me in s.clients
    ensures me in s'.clients && s'.clients[me].begun == s.clients[me].begun
  {
    CallsStay(external, run, run', me);
    hide StateAfter, ValidRun;
  }

  /** The answer to a call that began in state s0 and was over in s. It was true at a moment between, unless it is the
      error that excuses a failure of the database; and without such an excuse, if nobody else committed meanwhile, the
      tables and the answer are those that ReplyTo tells from the tables of s0. */
  ghost predicate WellAnswered(s0: State, s: State, me: nat, call: Call, result: Result, excused: bool) {
    && ((result == Internal && excused) || Outcomes.Borne(s.history, s.external, call, result, |s0.history|))
    && (!excused && Answers.OwnSince(s0.history, s.history, me) ==>
          Answers.Replied(s.external, s0.db, call, s.db, result))
  }

  lemma AnswersWell(external: bool, run0: seq<Event>, s0: State, call: Call, run: seq<Event>, s: State, me: nat,
                    excused: bool)
    requires At(external, run0, s0) && At(external, run, s) && run0 + [Event.Begin(me, call)] <= run
    requires me !in s0.clients && CallOk(call) && me in s.clients && s.clients[me].pc.Done?
    requires Hurt(run, me) ==> excused
    ensures WellAnswered(s0, s, me, call, s.clients[me].pc.result, excused)
  {
    var began := run0 + [Event.Begin(me, call)];
    assert ValidRun(external, run) && StateAfter(external, run) == s && StateAfter(external, run0) == s0;
    Start(external, run0, s0, me, call);
    var s1 := StateAfter(external, began);
    assert me in s1.clients && s1.clients[me].w.call == call && s1.clients[me].begun == |s0.history|;
    AtInv(external, run, s);
    if Outcomes.Broken(run, me) { BrokenIsHurt(run, me); }
    hide StateAfter, ValidRun, Outcomes.Borne, Outcomes.Broken, ReplyTo, At, CallOk, Hurt;
    CallsStay(external, began, run, me);
    Outcomes.AnswersAreTrue(external, run, me);
    if !excused && Answers.OwnSince(s0.history, s.history, me) {
      UnhurtIsAlone(external, run, |began|, |s0.history|, me);
      hide Answers.LeftAlone;
      var id, now := Answers.UndisturbedCallsReply(external, run0, run, me, call);
    }
  }

  lemma BrokenIsHurt(run: seq<Event>, me: nat)
    requires Outcomes.Broken(run, me)
    ensures Hurt(run, me)
  {
  }

  lemma UnhurtIsAlone(external: bool, run: seq<Event>, from: nat, h: nat, me: nat)
    requires !Hurt(run, me)
    requires var history := StateAfter(external, run).history; forall k :: h <= k < |history| ==>
               history[k].client == me
    ensures Answers.LeftAlone(external, run, from, h, me)
  {
    assert forall i :: 0 <= i < |run| ==> run[i] != Event.Abort(me) && run[i] != Event.LockFail(me);
  }

  /** A deposit or withdrawal that ends in CONFLICT, while three commits changed its account. */
  lemma ThreeChanges(external: bool, run0: seq<Event>, s0: State, call: Call, run: seq<Event>, s: State, me: nat)
    requires At(external, run0, s0) && At(external, run, s) && run0 + [Event.Begin(me, call)] <= run
    requires me !in s0.clients && CallOk(call) && call.CallMutate? && me in s.clients && s.clients[me].pc.Done?
    ensures s.clients[me].pc.result == Conflicted ==>
              Changes(s0.history, call.account) + 3 <= Changes(s.history, call.account)
  {
    var began := run0 + [Event.Begin(me, call)];
    Start(external, run0, s0, me, call);
    var s1 := StateAfter(external, began);
    assert me in s1.clients && s1.clients[me].w.call == call && s1.clients[me].begun == |s0.history|;
    hide StateAfter, ValidRun, CallOk, Changes;
    assert run0 <= run;
    CallsStay(external, began, run, me);
    Answers.HistoryGrows(external, run0, run);
    Mutations.MutateConflictsAreForeign(external, run, me);
    assert s.history[..|s0.history|] == s0.history;
  }

  /** What the answers of Transfer say by themselves. */
  lemma PlainAnswers(external: bool, run: seq<Event>, s: State, me: nat)
    requires At(external, run, s) && me in s.clients && s.clients[me].w.call.CallTransfer? && s.clients[me].pc.Done?
    ensures var call, result := s.clients[me].w.call, s.clients[me].pc.result;
            && (!external && result.Accepted? ==> result == Accepted(Settled))
            && (result == Invalid(false) <==> call.key == "" || call.from == call.to || call.amount <= 0)
  {
    var call, result := s.clients[me].w.call, s.clients[me].pc.result;
    Outcomes.AnswersAreTrue(external, run, me);
    Outcomes.BadCallsAreTurnedDown(external, run, me);
    hide StateAfter, ValidRun, Outcomes.OtherSince, Outcomes.WipedSince, Outcomes.Broken;
    if result.Accepted? || result == Invalid(false) {
      var m: nat :| m <= |s.history| && Outcomes.TellsAt(s.history, external, call, result, m);
      hide Replay;
    }
  }

  lemma NeverConflicts(external: bool, run: seq<Event>, s: State, me: nat)
    requires At(external, run, s) && me in s.clients
    ensures s.clients[me].pc != Done(VersionConflict)
  {
    Calls.FailNeverConflicts(external, run);
  }

  lemma BeganAt(external: bool, run: seq<Event>, s: State, me: nat)
    requires At(external, run, s) && me in s.clients
    ensures s.clients[me].w.call.CallTransfer? ==> s.clients[me].outer < s.clients[me].w.call.tries
  {
    AtInv(external, run, s);
    assert ClientOk(s, s.clients[me]);
    hide PcShape, HeldShape, Linked;
  }

  lemma TransferAnswers(external: bool, run: seq<Event>, s: State, me: nat)
    requires At(external, run, s) && me in s.clients && s.clients[me].w.call.CallTransfer? && s.clients[me].pc.Done?
    ensures var cl := s.clients[me];
            && (cl.pc.result.Accepted? ==> cl.w.tid.Some? && Bookings(s.history, cl.w.tid.value) == 1)
            && (!cl.pc.result.Accepted? ==> forall i :: 0 <= i < |s.history| && s.history[i].client == me ==>
                  s.history[i].op.Create? || s.history[i].op.MarkFailed?)
            && (cl.pc.result == Conflicted ==>
                  && cl.begun <= |s.history|
                  && 3 * (cl.w.call.tries - cl.clashed) <= Calls.HitsSince(s.history, cl, |s.history|)
                  && (Keys.AloneWithKey(s, me) ==> 3 * cl.w.call.tries <= Calls.HitsSince(s.history, cl, |s.history|)))
  {
    Calls.TransferResultsAreHonest(external, run, me);
    hide StateAfter, ValidRun, Bookings, Keys.AloneWithKey, Calls.HitsSince;
    if s.clients[me].pc.result == Conflicted {
      Calls.ConflictsAreForeign(external, run, me);
      if Keys.AloneWithKey(s, me) { Keys.OwnConflictsAreForeign(external, run, me); }
    }
  }

  predicate SameCall(cl: Client, cl': Client) { cl'.w.call == cl.w.call && cl'.outer == cl.outer }

  /** The call returned, or its worker starts it over after a CONFLICT. */
  predicate Answered(cl: Client, cl': Client) {
    || (SameCall(cl, cl') && cl'.pc.Done?)
    || (cl.w.call.CallTransfer? && cl'.w.call == cl.w.call && cl'.pc == Validate && cl'.attempt == 0
        && cl'.outer == cl.outer + 1 < cl.w.call.tries)
  }

  lemma BelowMax(external: bool, run: seq<Event>, s: State, me: nat)
    requires At(external, run, s) && me in s.clients
    ensures s.clients[me].attempt < MAX_RETRIES
  {
    AtInv(external, run, s);
    assert ClientOk(s, s.clients[me]);
    hide PcShape, HeldShape, Linked;
  }

  /** How an attempt can end: over, about to mark the transfer FAILED, to be retried, or given up. */
  predicate Attempted(cl: Client, cl': Client) {
    || Stops(cl, cl') || Goes(cl, cl', MarkFail) || Retries(cl, cl', LockRow) || GivesUp(cl, cl')
  }

  lemma AtTyped(external: bool, run: seq<Event>, s: State, me: nat)
    requires At(external, run, s) && me in s.clients
    ensures Typed(s.clients[me])
  {
    AtInv(external, run, s);
    assert ClientOk(s, s.clients[me]);
    hide Shape, Linked;
    Locks.ShapeIsTyped(s.clients[me], s.external);
  }
}
