/** Deposits and withdrawals among other clients: a CONFLICT took three commits of others to the same account. */
module Mutations {
  import opened Common
  import opened Bank
  import opened History
  import opened Protocol
  import opened Invariant
  import opened Refinement
  import opened Steps
  import Calls
  import Effects
  import Locks
  import Statements

  /** Attempts that a deposit or withdrawal has lost so far. */
  function Lost(cl: Client): nat { if cl.pc == Done(Conflicted) then 3 else cl.attempt }

  /** Every lost attempt is paid for by a change of the account's balance since the call began; and what the attempt at
      hand has read is as new as the last of these. */
  ghost predicate Paid(h: seq<Commit>, cl: Client) {
    cl.w.call.CallMutate? ==>
      var a := cl.w.call.account;
      && cl.begun <= |h| && Changes(h[..cl.begun], a) + Lost(cl) <= Changes(h, a)
      && (a in cl.w.snap ==> Changes(h[..cl.begun], a) + Lost(cl) <= cl.w.snap[a].version)
      && (!cl.pc.Done? ==> cl.attempt < 3)
  }

  ghost predicate AllPaid(s: State) { forall c :: c in s.clients ==> Paid(s.history, s.clients[c]) }

  lemma PaidLater(h: seq<Commit>, h': seq<Commit>, cl: Client)
    requires h <= h' && Paid(h, cl)
    ensures Paid(h', cl)
  {
    hide Changes;
    if cl.w.call.CallMutate? {
      assert h'[..|h|] == h && h'[..cl.begun] == h[..cl.begun];
      Calls.HitsMonotone(h', |h|, cl.w.call.account, cl.w.call.account);
    }
  }

  /** What a statement does to the count: a collision costs one attempt, and what is read is current. */
  ghost predicate Counts(db: Db, cl: Client, cl': Client)
    requires cl.w.call.CallMutate?
  {
    var a := cl.w.call.account;
    && Lost(cl') <= Lost(cl) + (if Calls.Collides(db, cl) then 1 else 0)
    && (Calls.Collides(db, cl) ==> a !in cl'.w.snap)
    && (a in cl'.w.snap ==>
          || (a in cl.w.snap && cl'.w.snap[a] == cl.w.snap[a])
          || (a in db.accounts && cl'.w.snap[a] == db.accounts[a]))
    && (!cl'.pc.Done? ==> cl'.attempt < 3)
  }

  lemma StatementCounts(db: Db, cl: Client, newId: Id, now: nat, clock: nat, external: bool)
    requires Typed(cl) && cl.w.call.CallMutate? && cl.attempt < 3
    requires cl.pc == ReadAcc(0) || cl.pc == UpdateAcc(0) || cl.pc == AddEntry(0) || cl.pc == CommitTx
    ensures Counts(db, cl, DoStatement(db, cl, newId, now, clock, external).cl)
  {
    hide NewBalance, VersionMatches, NewEntry, Publish, Continues;
    hide DoValidate, DoInsert, DoFind, DoLockRow, DoCountBooked, DoLockAcc;
  }

  lemma PaidMoves(s: State, cl: Client, cl': Client)
    requires Refines(s) && ClientOk(s, cl) && Paid(s.history, cl) && cl.w.call.CallMutate? && Counts(s.db, cl, cl')
    requires cl'.w.call == cl.w.call && cl'.begun == cl.begun
    ensures Paid(s.history, cl')
  {
    var a := cl.w.call.account;
    if Calls.Collides(s.db, cl) { MutateCollides(s, cl); }
    if a in s.db.accounts { Calls.CurrentVersion(s, a); }
    hide Refines, ClientOk, Changes, Calls.Collides, Lost;
  }

  /** A collision means that the account has changed since it was read. */
  lemma MutateCollides(s: State, cl: Client)
    requires Refines(s) && ClientOk(s, cl) && cl.w.call.CallMutate? && Calls.Collides(s.db, cl)
    ensures var a := cl.w.call.account;
            a in cl.w.snap && a in s.db.accounts && cl.w.snap[a].version < Changes(s.history, a)
  {
    hide Legal, Replay, HeldShape, CallShape, Changes;
    Statements.UpdateReady(cl, cl.pc.n, UpdateAt(cl.w, cl.pc.n)) by { hide UpdateShape; }
    assert UpdateAt(cl.w, cl.pc.n) == cl.w.call.account;
    Calls.CollisionMovesVersion(s, cl, cl.w.call.account);
    Calls.CurrentVersion(s, cl.w.call.account);
  }

  lemma DoKeepsPaid(s: State, c: nat, newId: Id, now: nat)
    requires Inv(s) && Enabled(s, Do(c, newId, now)) && s.clients[c].w.call.CallMutate? && Paid(s.history, s.clients[c])
    ensures var s' := Apply(s, Do(c, newId, now)); c in s'.clients && Paid(s'.history, s'.clients[c])
  {
    var cl, s' := s.clients[c], Apply(s, Do(c, newId, now));
    var cl' := DoStatement(s.db, cl, newId, now, |s.history|, s.external).cl;
    assert ClientOk(s, cl) && Refines(s) && cl.attempt < 3;
    Locks.MutatePcs(cl, s.external);
    StepCommits(s, Do(c, newId, now));
    hide Inv, ClientOk, NextLock, Typed, DoStatement, Paid, Counts, StepIs, OpOf, Refines;
    StatementCounts(s.db, cl, newId, now, |s.history|, s.external);
    PaidMoves(s, cl, cl');
    CommitsAppend(s, Do(c, newId, now));
    PaidLater(s.history, s'.history, cl');
  }

  lemma BeginsPaid(h: seq<Commit>, call: Call)
    ensures Paid(h, StartOf(call, |h|))
  {
    assert h[..|h|] == h;
    hide Changes;
  }

  /** Taking a lock or being given up. */
  lemma QuietKeepsPaid(h: seq<Commit>, cl: Client, cl': Client)
    requires Paid(h, cl) && cl'.w.call == cl.w.call && cl'.begun == cl.begun && cl'.attempt == cl.attempt
    requires cl'.pc == cl.pc || cl'.pc == Done(Internal) || cl'.pc == Done(Invalid(true))
    requires cl'.w.snap == cl.w.snap || cl'.w.snap == map[]
    requires cl.pc.Done? ==> cl'.pc == cl.pc
    ensures Paid(h, cl')
  {
    hide Changes;
  }

  lemma StepperPaid(s: State, e: Event)
    requires Inv(s) && Enabled(s, e) && AllPaid(s)
    ensures e.client in Apply(s, e).clients && Paid(Apply(s, e).history, Apply(s, e).clients[e.client])
  {
    hide Inv, NextLock, Free, Paid, DoStatement, Typed;
    match e {
      case Begin(_, call) => BeginsPaid(s.history, call);
      case Acquire(c) => QuietKeepsPaid(s.history, s.clients[c], Apply(s, e).clients[c]);
      case Do(c, newId, now) =>
        if s.clients[c].w.call.CallMutate? { DoKeepsPaid(s, c, newId, now); }
        else { ClientsStay(s, e); OthersPay(Apply(s, e).history, Apply(s, e).clients[c]); }
      case Abort(c) => QuietKeepsPaid(s.history, s.clients[c], Apply(s, e).clients[c]);
      case LockFail(c) =>
        Calls.ResetLocks(s, c);
        OthersPay(s.history, Apply(s, e).clients[c]);
    }
  }

  lemma OthersPay(h: seq<Commit>, cl: Client)
    requires !cl.w.call.CallMutate?
    ensures Paid(h, cl)
  {
  }

  lemma {:induction false} AllPaidAlways(external: bool, es: seq<Event>)
    requires ValidRun(external, es)
    ensures AllPaid(StateAfter(external, es))
  {
    hide Enabled, Apply, Inv, Paid;
    if es != [] {
      var s, e := LastStep(external, es);
      AllPaidAlways(external, es[..|es| - 1]);
      StepperPaid(s, e);
      ClientsStay(s, e);
      CommitsAppend(s, e);
      var s' := Apply(s, e);
      forall d | d in s'.clients ensures Paid(s'.history, s'.clients[d]) {
        if d != e.client { PaidLater(s.history, s'.history, s.clients[d]); }
      }
    }
  }

  /** In any run: a deposit or withdrawal is tried at most three times; one that ends in CONFLICT was, while three
      commits changed the balance of its account since it began; and none of them was its own, for it has committed
      nothing. */
  lemma MutateConflictsAreForeign(external: bool, es: seq<Event>, c: nat)
    requires ValidRun(external, es) && c in StateAfter(external, es).clients
    requires StateAfter(external, es).clients[c].w.call.CallMutate?
    ensures var s := StateAfter(external, es);
            var cl, a := s.clients[c], s.clients[c].w.call.account;
            && cl.begun <= |s.history| && (!cl.pc.Done? ==> cl.attempt < 3)
            && Changes(s.history[..cl.begun], a) + cl.attempt <= Changes(s.history, a)
            && (cl.pc == Done(Conflicted) ==>
                  Changes(s.history[..cl.begun], a) + 3 <= Changes(s.history, a) && Effects.Own(s.history, c) == [])
  {
    AllPaidAlways(external, es);
    var s := StateAfter(external, es);
    if s.clients[c].pc == Done(Conflicted) {
      Effects.CallsCommitExactlyWhatTheySay(external, es, c);
    }
    MutateAttempts(external, es, c);
    assert Paid(s.history, s.clients[c]);
    hide StateAfter, ValidRun, Changes;
  }

  lemma MutateAttempts(external: bool, es: seq<Event>, c: nat)
    requires ValidRun(external, es) && c in StateAfter(external, es).clients
    ensures StateAfter(external, es).clients[c].attempt < 3
  {
    EveryInterleavingRefinesTheAtomicBank(external, es);
    assert ClientOk(StateAfter(external, es), StateAfter(external, es).clients[c]);
    hide StateAfter, ValidRun, PcShape, HeldShape, Linked, Refines;
  }
}
