/** What a call does when no other call is in the middle of a transaction: it goes all the way through. */
module Solo {
  import opened Common
  import opened Ledger
  import opened Bank
  import BankLaws
  import opened History
  import opened Protocol
  import opened Invariant
  import opened Statements
  import opened Refinement
  import opened Steps

  /** Nobody but c holds a lock. */
  predicate Alone(s: State, c: nat) { forall d :: d in s.clients && d != c ==> s.clients[d].held == {} }

  /** es is a run, and it has come to state s. */
  ghost predicate At(external: bool, es: seq<Event>, s: State) {
    ValidRun(external, es) && StateAfter(external, es) == s
  }

  lemma Extend(external: bool, es: seq<Event>, s: State, e: Event)
    requires At(external, es, s) && Enabled(s, e)
    ensures At(external, es + [e], Apply(s, e))
  {
    hide Enabled, Apply;
    assert (es + [e])[..|es|] == es;
  }

  /** The client with all the locks its statement needs. */
  function Armed(db: Db, cl: Client): (armed: Client)
    ensures armed == cl.(held := armed.held) && (Typed(armed) <==> Typed(cl))
  {
    cl.(held := cl.held + LocksOf(Needs(db, cl)))
  }

  function LocksOf(needs: seq<Lock>): set<Lock> { set l | l in needs }

  lemma TakeLock(external: bool, es: seq<Event>, s: State, c: nat, l: Lock)
    requires At(external, es, s) && c in s.clients && Alone(s, c) && NextLock(s.db, s.clients[c]) == Some(l)
    ensures At(external, es + [Acquire(c)], Put(s, c, s.clients[c].(held := s.clients[c].held + {l})))
  {
    hide NextLock, At;
    Extend(external, es, s, Acquire(c));
  }

  /** Only client c took steps since es. */
  predicate OnlyBy(es: seq<Event>, es': seq<Event>, c: nat) {
    es <= es' && forall i :: |es| <= i < |es'| ==> es'[i].client == c && (es'[i].Acquire? || es'[i].Do?)
  }

  lemma OnlyByOneMore(es: seq<Event>, es': seq<Event>, c: nat, e: Event)
    requires OnlyBy(es, es', c) && e.client == c && (e.Acquire? || e.Do?)
    ensures OnlyBy(es, es' + [e], c)
  {
  }

  lemma OnlyByJoins(es: seq<Event>, es1: seq<Event>, es2: seq<Event>, c: nat)
    requires OnlyBy(es, es1, c) && OnlyBy(es1, es2, c)
    ensures OnlyBy(es, es2, c)
  {
    forall i | |es| <= i < |es2| ensures es2[i].client == c && (es2[i].Acquire? || es2[i].Do?) {
      if i < |es1| { assert es2[i] == es1[i]; }
    }
  }

  lemma {:induction false} Arm(external: bool, es: seq<Event>, s: State, c: nat) returns (es': seq<Event>)
    requires At(external, es, s) && c in s.clients && Alone(s, c)
    ensures es <= es' && OnlyBy(es, es', c) && At(external, es', Put(s, c, Armed(s.db, s.clients[c])))
    ensures NextLock(s.db, Armed(s.db, s.clients[c])) == None
    decreases |LocksOf(Needs(s.db, s.clients[c])) - s.clients[c].held|
  {
    hide At, Needs, NextLock, LocksOf, Armed;
    var cl := s.clients[c];
    if NextLock(s.db, cl) == None {
      AllArmed(s.db, cl);
      assert Put(s, c, cl) == s;
      es' := es;
    } else {
      var l := NextLock(s.db, cl).value;
      TakeLock(external, es, s, c, l);
      ArmsMore(s.db, cl);
      var cl' := cl.(held := cl.held + {l});
      es' := Arm(external, es + [Acquire(c)], Put(s, c, cl'), c);
      OnlyByOneMore(es, es, c, Acquire(c));
      OnlyByJoins(es, es + [Acquire(c)], es', c);
      assert Put(Put(s, c, cl'), c, Armed(s.db, cl)) == Put(s, c, Armed(s.db, cl));
    }
  }

  lemma AllArmed(db: Db, cl: Client)
    requires NextLock(db, cl) == None
    ensures Armed(db, cl) == cl
  {
    NoneMissing(Needs(db, cl), cl.held);
    hide Needs, FirstMissing;
    assert cl.held + LocksOf(Needs(db, cl)) == cl.held;
  }

  lemma ArmsMore(db: Db, cl: Client)
    requires NextLock(db, cl).Some?
    ensures var cl' := cl.(held := cl.held + {NextLock(db, cl).value});
            && Armed(db, cl') == Armed(db, cl)
            && |LocksOf(Needs(db, cl')) - cl'.held| < |LocksOf(Needs(db, cl)) - cl.held|
  {
    var l := NextLock(db, cl).value;
    FirstMissingIsMissing(Needs(db, cl), cl.held);
    SameNeeds(db, cl, l);
    hide Needs, FirstMissing;
    var missing := LocksOf(Needs(db, cl)) - cl.held;
    assert LocksOf(Needs(db, cl)) - (cl.held + {l}) == missing - {l};
    assert cl.held + {l} + LocksOf(Needs(db, cl)) == cl.held + LocksOf(Needs(db, cl));
  }

  lemma SameNeeds(db: Db, cl: Client, l: Lock)
    ensures Needs(db, cl.(held := cl.held + {l})) == Needs(db, cl)
  {
  }

  lemma {:induction false} FirstMissingIsMissing(needs: seq<Lock>, held: set<Lock>)
    requires FirstMissing(needs, held).Some?
    ensures FirstMissing(needs, held).value in needs && FirstMissing(needs, held).value !in held
  {
    if needs[0] in held { FirstMissingIsMissing(needs[1..], held); }
  }

  /** The statement of client c, once its locks are taken. */
  ghost function Stepped(s: State, c: nat, newId: Id, now: nat): Out
    requires c in s.clients && Typed(s.clients[c])
  {
    DoStatement(s.db, Armed(s.db, s.clients[c]), newId, now, |s.history|, s.external)
  }

  lemma RunStatement(external: bool, es: seq<Event>, s: State, c: nat, newId: Id, now: nat)
    requires At(external, es, s) && Unfinished(s, c) && Typed(s.clients[c]) && NextLock(s.db, s.clients[c]) == None
    requires newId !in s.db.issued
    ensures At(external, es + [Do(c, newId, now)],
               Settle(s, c, DoStatement(s.db, s.clients[c], newId, now, |s.history|, s.external)))
  {
    hide NextLock, At, Typed, DoStatement;
    Extend(external, es, s, Do(c, newId, now));
  }

  /** A client that is alone takes its locks and runs its statement. */
  lemma Advance(external: bool, es: seq<Event>, s: State, c: nat, newId: Id, now: nat) returns (es': seq<Event>)
    requires At(external, es, s) && Unfinished(s, c) && Typed(s.clients[c]) && Alone(s, c) && newId !in s.db.issued
    ensures es <= es' && OnlyBy(es, es', c) && At(external, es', Settle(s, c, Stepped(s, c, newId, now)))
    ensures Alone(Settle(s, c, Stepped(s, c, newId, now)), c)
  {
    hide At, DoStatement, Needs, NextLock;
    var armed := Put(s, c, Armed(s.db, s.clients[c]));
    var before := Arm(external, es, s, c);
    RunStatement(external, before, armed, c, newId, now);
    es' := before + [Do(c, newId, now)];
    OnlyByOneMore(es, before, c, Do(c, newId, now));
    assert Settle(armed, c, Stepped(s, c, newId, now)) == Settle(s, c, Stepped(s, c, newId, now));
  }

  // ------------------------------------------------------------------------------------------ statement by statement

  /** There is always an identifier that was never handed out. */
  lemma {:induction false} UnusedId(used: set<Id>) returns (id: Id)
    ensures forall u :: u in used ==> u < id
  {
    id := 0;
    if used != {} {
      var x :| x in used;
      var rest := UnusedId(used - {x});
      id := if x < rest then rest else x + 1;
      assert forall u :: u in used ==> u == x || u in used - {x};
    }
  }

  /** A statement that commits nothing and takes client c from cl to cl'. */
  ghost predicate Moves(s: State, c: nat, cl: Client, cl': Client) {
    Typed(cl) && !cl.pc.Done? && forall newId ::
      DoStatement(s.db, Armed(s.db, cl), newId, 0, |s.history|, s.external) == Stay(s.db, cl')
  }

  lemma Move(external: bool, es: seq<Event>, s: State, c: nat, cl: Client, cl': Client) returns (es': seq<Event>)
    requires At(external, es, Put(s, c, cl)) && Alone(s, c) && Moves(s, c, cl, cl')
    ensures es <= es' && At(external, es', Put(s, c, cl'))
  {
    hide At, Typed, DoStatement, Armed;
    var newId := UnusedId(s.db.issued);
    es' := Advance(external, es, Put(s, c, cl), c, newId, 0);
    assert Settle(Put(s, c, cl), c, Stay(s.db, cl')) == Put(s, c, cl');
  }

  ghost predicate Path(s: State, c: nat, path: seq<Client>) {
    path != [] && forall i :: 0 <= i < |path| - 1 ==> Moves(s, c, path[i], path[i + 1])
  }

  lemma {:induction false} Follow(external: bool, es: seq<Event>, s: State, c: nat, path: seq<Client>)
    returns (es': seq<Event>)
    requires Path(s, c, path) && At(external, es, Put(s, c, path[0])) && Alone(s, c)
    ensures es <= es' && At(external, es', Put(s, c, path[|path| - 1]))
    decreases |path|
  {
    hide At, Moves;
    es' := es;
    if |path| > 1 {
      es' := Move(external, es, s, c, path[0], path[1]);
      es' := Follow(external, es', s, c, path[1..]);
    }
  }

  lemma {:induction false} PathKeepsCall(s: State, c: nat, path: seq<Client>)
    requires path != [] && Path(s, c, path)
    ensures path[|path| - 1].w.call == path[0].w.call
    decreases |path|
  {
    hide DoStatement, Armed;
    if |path| > 1 {
      assert Moves(s, c, path[0], path[1]);
      assert DoStatement(s.db, Armed(s.db, path[0]), 0, 0, |s.history|, s.external) == Stay(s.db, path[1]);
      hide Moves;
      PathKeepsCall(s, c, path[1..]);
    }
  }

  /** A statement that commits op and takes client c from cl to cl'. */
  lemma MoveAndCommit(external: bool, es: seq<Event>, s: State, c: nat, cl: Client, newId: Id, now: nat, op: Op,
                      cl': Client)
    returns (es': seq<Event>)
    requires At(external, es, Put(s, c, cl)) && Alone(s, c) && Typed(cl) && !cl.pc.Done? && newId !in s.db.issued
    requires var out := DoStatement(s.db, Armed(s.db, cl), newId, now, |s.history|, s.external);
             out.log == Some(op) && out.cl == cl'
    requires RowsOk(s.db) && Guard(s.db, op)
    ensures es <= es' && At(external, es', Committed(s, c, op, cl'))
  {
    hide At, Typed, DoStatement, Armed, Guard, Exec, RowsOk, NextLock, Needs, OnlyBy, DbInv;
    var here := Put(s, c, cl);
    var armed := Put(here, c, Armed(s.db, cl));
    var before := Arm(external, es, here, c);
    RunStatement(external, before, armed, c, newId, now);
    es' := before + [Do(c, newId, now)];
    AtInv(external, before, armed);
    AppliesOp(armed, Do(c, newId, now), op);
    assert armed.clients[c := cl'] == s.clients[c := cl'];
  }

  lemma AtInv(external: bool, es: seq<Event>, s: State)
    requires At(external, es, s)
    ensures Inv(s) && s.external == external
  {
    EveryInterleavingRefinesTheAtomicBank(external, es);
    ExternalStays(external, es);
  }

  lemma AppliesOp(s: State, e: Event, op: Op)
    requires Inv(s) && Enabled(s, e) && OpOf(s, e) == Some(op)
    ensures RowsOk(s.db) && Guard(s.db, op) && Apply(s, e).db == Exec(s.db, op)
    ensures Apply(s, e).history == s.history + [Commit(e.client, op)]
  {
    hide Inv, Enabled, OpOf, Apply, Guard, Exec;
    StepCommits(s, e);
  }

  // --------------------------------------------------------------------------------------------------- whole calls

  /** Nobody holds a lock. */
  predicate Idle(s: State) { forall d :: d in s.clients ==> s.clients[d].held == {} }

  /** s' is s after client c committed op and returned. */
  ghost predicate After(s: State, c: nat, op: Op, result: Result, s': State) {
    && RowsOk(s.db) && Guard(s.db, op) && s'.db == Exec(s.db, op) && s'.history == s.history + [Commit(c, op)]
    && s'.external == s.external && s'.clients.Keys == s.clients.Keys + {c}
    && s'.clients[c].pc == Done(result)
    && (forall d :: d in s.clients && d != c ==> s'.clients[d] == s.clients[d])
  }

  lemma Start(external: bool, es: seq<Event>, s: State, c: nat, call: Call)
    requires At(external, es, s) && c !in s.clients && CallOk(call)
    ensures At(external, es + [Begin(c, call)], Put(s, c, StartOf(call, |s.history|)))
  {
    hide At, CallOk;
    Extend(external, es, s, Begin(c, call));
  }

  lemma MutateReads(s: State, c: nat, cl: Client)
    requires cl.w.call.CallMutate? && cl.pc == ReadAcc(0) && From(cl.w) in s.db.accounts
    requires s.db.accounts[From(cl.w)].status == Active
    requires IsInt64(s.db.accounts[From(cl.w)].balance + Delta(cl.w, From(cl.w)))
    requires 0 <= s.db.accounts[From(cl.w)].balance + Delta(cl.w, From(cl.w))
    ensures var cl' := Armed(s.db, cl).(w := Read(s.db, cl.w, From(cl.w)), pc := UpdateAcc(0)); Moves(s, c, cl, cl')
  {
    hide Armed, DoInsert, DoFind, DoLockRow, DoCountBooked, DoLockAcc, DoUpdateAcc, DoCommit;
  }

  lemma MutateUpdates(s: State, c: nat, cl: Client)
    requires cl.w.call.CallMutate? && cl.pc == UpdateAcc(0)
    requires VersionMatches(s.db, cl.w, From(cl.w)) && 0 <= NewBalance(cl.w, From(cl.w))
    ensures var cl' := Armed(s.db, cl).(bal := cl.bal[From(cl.w) := NewBalance(cl.w, From(cl.w))], pc := AddEntry(0));
            Moves(s, c, cl, cl')
  {
    hide Armed, NewBalance, VersionMatches, DoInsert, DoFind, DoLockRow, DoCountBooked, DoLockAcc, DoReadAcc, DoCommit;
  }

  lemma MutateAdds(s: State, c: nat, cl: Client)
    requires cl.w.call.CallMutate? && cl.pc == AddEntry(0)
    ensures var cl' := Armed(s.db, cl).(adds := cl.adds + [NewEntry(cl.w, 0)], pc := CommitTx); Moves(s, c, cl, cl')
  {
    hide Armed, NewBalance, NewEntry, DoInsert, DoFind, DoLockRow, DoCountBooked, DoLockAcc, DoReadAcc, DoCommit;
  }

  lemma MutatePath(s: State, c: nat, cl: Client, a: Id) returns (path: seq<Client>)
    requires cl.w.call.CallMutate? && cl.pc == ReadAcc(0) && a == From(cl.w) && a in s.db.accounts
    requires s.db.accounts[a].status == Active
    requires IsInt64(s.db.accounts[a].balance + Delta(cl.w, a)) && 0 <= s.db.accounts[a].balance + Delta(cl.w, a)
    ensures |path| == 4 && path[0] == cl && Path(s, c, path) && path[3].pc == CommitTx && path[3].w.call == cl.w.call
  {
    hide Moves, Armed, NewBalance, NewEntry, Delta;
    MutateReads(s, c, cl);
    var cl1 := Armed(s.db, cl).(w := Read(s.db, cl.w, a), pc := UpdateAcc(0));
    ReadBalance(s.db, cl.w, a);
    MutateUpdates(s, c, cl1);
    var cl2 := Armed(s.db, cl1).(bal := cl1.bal[a := NewBalance(cl1.w, a)], pc := AddEntry(0));
    MutateAdds(s, c, cl2);
    var cl3 := Armed(s.db, cl2).(adds := cl2.adds + [NewEntry(cl2.w, 0)], pc := CommitTx);
    path := [cl, cl1, cl2, cl3];
  }

  /** Follows a path to the statement that commits op and ends the call. */
  lemma GoThrough(external: bool, es: seq<Event>, s: State, c: nat, path: seq<Client>, op: Op, result: Result)
    returns (es': seq<Event>, s': State)
    requires path != [] && Path(s, c, path) && At(external, es, Put(s, c, path[0])) && Alone(s, c)
    requires RowsOk(s.db) && Guard(s.db, op) && Ends(s, path[|path| - 1], op, result)
    ensures es <= es' && At(external, es', s') && Idle(s') && After(s, c, op, result, s')
    ensures s'.clients[c].w.call == path[0].w.call
  {
    PathKeepsCall(s, c, path);
    hide At, Path, Exec, Guard, DoStatement, Typed, Armed, RowsOk;
    var cl := path[|path| - 1];
    es' := Follow(external, es, s, c, path);
    var id := UnusedId(s.db.issued);
    var cl' := EndTx(Armed(s.db, cl), Done(result));
    var before := es';
    es' := MoveAndCommit(external, before, s, c, cl, id, 0, op, cl');
    s' := Committed(s, c, op, cl');
    ComesAfter(s, c, op, cl', result);
  }

  function Committed(s: State, c: nat, op: Op, cl: Client): State
    requires RowsOk(s.db) && Guard(s.db, op)
  {
    State(Exec(s.db, op), s.history + [Commit(c, op)], s.clients[c := cl], s.external)
  }

  lemma ComesAfter(s: State, c: nat, op: Op, cl: Client, result: Result)
    requires RowsOk(s.db) && Guard(s.db, op) && Alone(s, c) && cl.held == {} && cl.pc == Done(result)
    ensures Idle(Committed(s, c, op, cl)) && After(s, c, op, result, Committed(s, c, op, cl))
  {
    hide RowsOk, Guard, Exec;
  }

  /** The statement of cl commits op and returns the result. */
  ghost predicate Ends(s: State, cl: Client, op: Op, result: Result) {
    Typed(cl) && !cl.pc.Done? && forall newId ::
      var out := DoStatement(s.db, Armed(s.db, cl), newId, 0, |s.history|, s.external);
      out.log == Some(op) && out.cl == EndTx(Armed(s.db, cl), Done(result))
  }

  lemma IdleIsAlone(s: State, c: nat)
    requires Idle(s)
    ensures Alone(s, c)
  {
  }

  /** A deposit or withdrawal on an ACTIVE account that leaves a representable, non-negative balance goes through. */
  lemma SoloMutate(external: bool, es: seq<Event>, s: State, c: nat, a: Id, delta: int, typ: EntryType)
    returns (es': seq<Event>, s': State)
    requires At(external, es, s) && c !in s.clients && Idle(s) && CallOk(CallMutate(a, delta, typ))
    requires a in s.db.accounts && s.db.accounts[a].status == Active && CanPost(s.db, a, delta)
    ensures es <= es' && At(external, es', s') && Idle(s') && After(s, c, Mutate(a, delta), Completed, s')
  {
    hide At, Path, DbInv, RowsOk, Exec, After, Guard, Ends, CallOk, Idle;
    AtRows(external, es, s);
    MutateGuard(s.db, a, delta, typ);
    assert Alone(s, c) by { IdleIsAlone(s, c); }
    var cl := StartOf(CallMutate(a, delta, typ), |s.history|);
    Start(external, es, s, c, cl.w.call);
    var path := MutatePath(s, c, cl, a);
    MutateCommit(s, path[3]);
    es', s' := GoThrough(external, es + [Begin(c, cl.w.call)], s, c, path, Mutate(a, delta), Completed);
  }

  lemma MutateGuard(db: Db, a: Id, delta: int, typ: EntryType)
    requires CallOk(CallMutate(a, delta, typ)) && CanPost(db, a, delta)
    ensures Guard(db, Mutate(a, delta))
  {
  }

  lemma MutateCommit(s: State, cl: Client)
    requires cl.pc == CommitTx && cl.w.call.CallMutate?
    ensures Ends(s, cl, Mutate(cl.w.call.account, cl.w.call.delta), Completed)
  {
    hide Armed, NewBalance, NewEntry, DoInsert, DoFind, DoLockRow, DoCountBooked, DoLockAcc, DoReadAcc, Publish;
  }

  lemma ReadBalance(db: Db, w: Work, a: Id)
    requires a in db.accounts && IsInt64(db.accounts[a].balance + Delta(w, a))
    ensures NewBalance(Read(db, w, a), a) == db.accounts[a].balance + Delta(w, a)
  {
  }

  lemma AtRows(external: bool, es: seq<Event>, s: State)
    requires At(external, es, s)
    ensures DbInv(s.db) && RowsOk(s.db) && s.external == external
  {
    AtInv(external, es, s);
    InvRefined(s);
    InvKnowsDb(s);
  }

  // ------------------------------------------------------------------------------------------------------ transfers

  /** The client stands before its own, unbooked PENDING transfer, with nothing read or written. */
  predicate Facing(db: Db, cl: Client, t: Id) {
    && cl.w.call.CallTransfer? && ParamsValid(cl.w.call) && IsInt64(cl.w.call.amount) && cl.w.tid == Some(t)
    && cl.w.snap == map[] && cl.bal == map[] && cl.adds == [] && cl.write == NoWrite
    && RowIs(db, t, cl.w.call.from, cl.w.call.to, cl.w.call.amount)
    && db.transfers[t].status == Pending && !Booked(db, t)
    && cl.w.call.from in db.accounts && db.accounts[cl.w.call.from].status == Active
    && cl.w.call.to in db.accounts && db.accounts[cl.w.call.to].status == Active
    && 0 <= db.accounts[cl.w.call.from].balance <= MAX_INT64 && 0 <= db.accounts[cl.w.call.to].balance
  }

  predicate Funded(db: Db, call: Call) {
    && call.CallTransfer? && call.from in db.accounts && call.to in db.accounts
    && call.amount <= db.accounts[call.from].balance && db.accounts[call.to].balance + call.amount <= MAX_INT64
  }

  lemma TransferLocks(s: State, c: nat, cl: Client, t: Id)
    requires cl.pc == LockRow && Facing(s.db, cl, t)
    ensures Moves(s, c, cl, Armed(s.db, cl).(w := cl.w.(row := Some(s.db.transfers[t])), epoch := |s.history|,
                                             pc := CountBooked))
  {
    hide Armed, Booked, ParamsValid, DoInsert, DoFind, DoCountBooked, DoLockAcc, DoUpdateAcc, DoReadAcc, DoCommit;
  }

  lemma TransferCounts(s: State, c: nat, cl: Client, t: Id)
    requires cl.pc == CountBooked && Facing(s.db, cl, t)
    ensures Moves(s, c, cl, Armed(s.db, cl).(w := cl.w.(count := Some(0)), pc := ReadAcc(0)))
  {
    hide Armed, Select, ParamsValid, DoInsert, DoFind, DoLockRow, DoLockAcc, DoUpdateAcc, DoReadAcc, DoCommit;
  }

  lemma TransferReads(s: State, c: nat, cl: Client, t: Id)
    requires cl.pc == ReadAcc(0) && Facing(s.db, cl, t)
    ensures Moves(s, c, cl, Armed(s.db, cl).(w := Read(s.db, cl.w, ReadAt(cl.w, 0)), pc := ReadAcc(1)))
  {
    hide Armed, Booked, ParamsValid, DoInsert, DoFind, DoLockRow, DoCountBooked, DoLockAcc, DoUpdateAcc, DoCommit;
  }

  /** The snapshot is what the tables say. */
  predicate Snapped(db: Db, w: Work) {
    && w.call.CallTransfer? && w.snap.Keys == {w.call.from, w.call.to}
    && forall a :: a in w.snap ==> a in db.accounts && w.snap[a] == db.accounts[a]
  }

  lemma TransferReadsAgain(s: State, c: nat, cl: Client, t: Id, w: Work)
    requires cl.pc == ReadAcc(1) && Facing(s.db, cl.(w := w), t) && cl.w == Read(s.db, w, ReadAt(w, 0))
    ensures var w' := Read(s.db, cl.w, ReadAt(cl.w, 1));
            && Snapped(s.db, w')
            && Moves(s, c, cl, if cl.w.call.amount <= s.db.accounts[cl.w.call.from].balance
                               then Armed(s.db, cl).(w := w', pc := UpdateAcc(0)) else EndTx(Armed(s.db, cl), MarkFail))
  {
    hide Armed, Booked, DoInsert, DoFind, DoLockRow, DoCountBooked, DoLockAcc, DoUpdateAcc, DoCommit, RowIs;
  }

  lemma TransferUpdates(s: State, c: nat, cl: Client, n: nat)
    requires cl.pc == UpdateAcc(n) && n < 2 && Snapped(s.db, cl.w) && 0 <= NewBalance(cl.w, UpdateAt(cl.w, n))
    ensures var a := UpdateAt(cl.w, n);
            Moves(s, c, cl, Armed(s.db, cl).(bal := cl.bal[a := NewBalance(cl.w, a)],
                                             pc := if n == 0 then UpdateAcc(1) else AddEntry(0)))
  {
    hide Armed, NewBalance, DoInsert, DoFind, DoLockRow, DoCountBooked, DoLockAcc, DoReadAcc, DoCommit;
  }

  lemma TransferAdds(s: State, c: nat, cl: Client, n: nat)
    requires cl.pc == AddEntry(n) && n < 2 && cl.w.call.CallTransfer?
    ensures Moves(s, c, cl, Armed(s.db, cl).(adds := cl.adds + [NewEntry(cl.w, n)],
                    pc := if n == 0 then AddEntry(1) else if s.external then CommitTx else WriteRow))
  {
    hide Armed, NewEntry, DoInsert, DoFind, DoLockRow, DoCountBooked, DoLockAcc, DoReadAcc, DoUpdateAcc, DoCommit;
  }

  lemma TransferWrites(s: State, c: nat, cl: Client)
    requires cl.pc == WriteRow && cl.w.call.CallTransfer?
    ensures Moves(s, c, cl, Armed(s.db, cl).(write := WriteStatus(Settled), pc := CommitTx))
  {
    hide Armed, NewEntry, DoInsert, DoFind, DoLockRow, DoCountBooked, DoLockAcc, DoReadAcc, DoUpdateAcc, DoCommit;
  }

  lemma TransferEnds(s: State, cl: Client, t: Id)
    requires cl.pc == CommitTx && cl.w.call.CallTransfer? && cl.w.tid == Some(t)
    ensures Ends(s, cl, Book(t, cl.w.call.from, cl.w.call.to, cl.w.call.amount, cl.write != NoWrite),
                 SuccessOf(s.external))
  {
    hide Armed, NewEntry, DoInsert, DoFind, DoLockRow, DoCountBooked, DoLockAcc, DoReadAcc, DoUpdateAcc, Publish;
  }

  lemma BalancesFit(db: Db, w: Work)
    requires Snapped(db, w) && Funded(db, w.call) && 0 < w.call.amount && w.call.from != w.call.to
    requires 0 <= db.accounts[w.call.from].balance <= MAX_INT64 && 0 <= db.accounts[w.call.to].balance
    ensures 0 <= NewBalance(w, UpdateAt(w, 0)) && 0 <= NewBalance(w, UpdateAt(w, 1))
  {
  }

  lemma PathToReads(s: State, c: nat, cl: Client, t: Id) returns (path: seq<Client>, w: Work)
    requires cl.pc == LockRow && Facing(s.db, cl, t)
    ensures |path| == 4 && path[0] == cl && Path(s, c, path) && path[3].pc == ReadAcc(1)
    ensures w.call == cl.w.call && path[3].w == Read(s.db, w, ReadAt(w, 0)) && Facing(s.db, path[3].(w := w), t)
  {
    hide Moves, Armed, Booked, ParamsValid;
    TransferLocks(s, c, cl, t);
    var cl1 := Armed(s.db, cl).(w := cl.w.(row := Some(s.db.transfers[t])), epoch := |s.history|, pc := CountBooked);
    TransferCounts(s, c, cl1, t);
    var cl2 := Armed(s.db, cl1).(w := cl1.w.(count := Some(0)), pc := ReadAcc(0));
    TransferReads(s, c, cl2, t);
    w := cl2.w;
    path := [cl, cl1, cl2, Armed(s.db, cl2).(w := Read(s.db, w, ReadAt(w, 0)), pc := ReadAcc(1))];
  }

  lemma PathJoins(s: State, c: nat, p: seq<Client>, q: seq<Client>)
    requires p != [] && Path(s, c, p) && q != [] && Path(s, c, q) && p[|p| - 1] == q[0]
    ensures Path(s, c, p[..|p| - 1] + q)
  {
    hide Moves;
    var r := p[..|p| - 1] + q;
    forall i | 0 <= i < |r| - 1 ensures Moves(s, c, r[i], r[i + 1]) {
      if i < |p| - 1 { assert r[i] == p[i] && r[i + 1] == p[i + 1]; }
      else { assert r[i] == q[i - (|p| - 1)] && r[i + 1] == q[i + 1 - (|p| - 1)]; }
    }
  }

  /** With too little money, an unbooked transfer is about to be marked FAILED. */
  lemma PathToMarkFail(s: State, c: nat, cl: Client, t: Id) returns (path: seq<Client>)
    requires cl.pc == LockRow && Facing(s.db, cl, t) && s.db.accounts[cl.w.call.from].balance < cl.w.call.amount
    ensures path != [] && path[0] == cl && Path(s, c, path)
    ensures var end := path[|path| - 1];
            end.pc == MarkFail && end.w.call == cl.w.call && end.w.tid == Some(t) && end.held == {}
  {
    hide Moves, Armed, Booked, ReadAt, ParamsValid, RowIs;
    var p, w := PathToReads(s, c, cl, t);
    TransferReadsAgain(s, c, p[3], t, w);
    path := p + [EndTx(Armed(s.db, p[3]), MarkFail)];
  }

  lemma PathOfUpdates(s: State, c: nat, cl: Client, t: Id) returns (path: seq<Client>)
    requires cl.pc == UpdateAcc(0) && Snapped(s.db, cl.w) && cl.w.tid == Some(t) && cl.write == NoWrite
    requires 0 <= NewBalance(cl.w, UpdateAt(cl.w, 0)) && 0 <= NewBalance(cl.w, UpdateAt(cl.w, 1))
    ensures |path| >= 3 && path[0] == cl && Path(s, c, path)
    ensures var end := path[|path| - 1];
            end.pc == CommitTx && end.w == cl.w && (end.write != NoWrite <==> !s.external)
  {
    assert cl.w.call.CallTransfer?;
    hide Moves, Armed, NewBalance, NewEntry, UpdateAt, Snapped;
    TransferUpdates(s, c, cl, 0);
    var a, b := UpdateAt(cl.w, 0), UpdateAt(cl.w, 1);
    var cl1 := Armed(s.db, cl).(bal := cl.bal[a := NewBalance(cl.w, a)], pc := UpdateAcc(1));
    TransferUpdates(s, c, cl1, 1);
    var cl2 := Armed(s.db, cl1).(bal := cl1.bal[b := NewBalance(cl.w, b)], pc := AddEntry(0));
    var rest := PathOfEntries(s, c, cl2);
    path := [cl, cl1] + rest;
  }

  lemma PathOfEntries(s: State, c: nat, cl: Client) returns (path: seq<Client>)
    requires cl.pc == AddEntry(0) && cl.w.call.CallTransfer? && cl.write == NoWrite
    ensures |path| >= 3 && path[0] == cl && Path(s, c, path)
    ensures var end := path[|path| - 1];
            end.pc == CommitTx && end.w == cl.w && (end.write != NoWrite <==> !s.external)
  {
    hide Moves, Armed, NewEntry;
    TransferAdds(s, c, cl, 0);
    var cl1 := Armed(s.db, cl).(adds := cl.adds + [NewEntry(cl.w, 0)], pc := AddEntry(1));
    TransferAdds(s, c, cl1, 1);
    var cl2 := Armed(s.db, cl1).(adds := cl1.adds + [NewEntry(cl1.w, 1)],
                                 pc := if s.external then CommitTx else WriteRow);
    path := [cl, cl1, cl2];
    if !s.external {
      TransferWrites(s, c, cl2);
      path := [cl, cl1, cl2, Armed(s.db, cl2).(write := WriteStatus(Settled), pc := CommitTx)];
    }
  }

  /** With enough money, it is about to be booked. */
  lemma PathToBooking(s: State, c: nat, cl: Client, t: Id) returns (path: seq<Client>)
    requires cl.pc == LockRow && Facing(s.db, cl, t) && Funded(s.db, cl.w.call)
    ensures path != [] && path[0] == cl && Path(s, c, path)
    ensures Ends(s, path[|path| - 1], Book(t, cl.w.call.from, cl.w.call.to, cl.w.call.amount, !s.external),
                 SuccessOf(s.external))
  {
    hide Moves, Armed, Booked, NewBalance, Path, UpdateAt;
    var p, w := PathToReads(s, c, cl, t);
    TransferReadsAgain(s, c, p[3], t, w);
    var w' := Read(s.db, p[3].w, ReadAt(p[3].w, 1));
    BalancesFit(s.db, w');
    var cl' := Armed(s.db, p[3]).(w := w', pc := UpdateAcc(0));
    var q := PathOfUpdates(s, c, cl', t);
    var end := q[|q| - 1];
    TransferEnds(s, end, t);
    hide Facing, Funded, Snapped;
    assert Path(s, c, p + [cl']) by { PathGrows(s, c, p, cl'); }
    PathJoins(s, c, p + [cl'], q);
    path := (p + [cl'])[..|p + [cl']| - 1] + q;
  }

  lemma PathGrows(s: State, c: nat, p: seq<Client>, cl: Client)
    requires p != [] && Path(s, c, p) && Moves(s, c, p[|p| - 1], cl)
    ensures Path(s, c, p + [cl])
  {
    hide Moves;
  }

  lemma TransferValidates(s: State, c: nat, cl: Client)
    requires cl.pc == Validate && ParamsValid(cl.w.call)
    ensures Moves(s, c, cl, Armed(s.db, cl).(pc := Insert))
  {
    hide Armed, DoInsert, DoFind, DoLockRow, DoCountBooked, DoLockAcc, DoReadAcc, DoUpdateAcc, DoCommit;
  }

  lemma TransferKeyTaken(s: State, c: nat, cl: Client)
    requires cl.pc == Insert && cl.w.call.CallTransfer? && KeyTaken(s.db, cl.w.call.key)
    ensures Moves(s, c, cl, EndTx(Armed(s.db, cl), Find))
  {
    hide Armed, KeyTaken, DoFind, DoLockRow, DoCountBooked, DoLockAcc, DoReadAcc, DoUpdateAcc, DoCommit;
  }

  /** The transfer of the call's key is there, with the call's parameters, PENDING and unbooked. */
  predicate Known(db: Db, call: Call, t: Id) {
    && call.CallTransfer? && RowIs(db, t, call.from, call.to, call.amount)
    && db.transfers[t].key == call.key && db.transfers[t].status == Pending && !Booked(db, t)
  }

  lemma TransferFinds(s: State, c: nat, cl: Client, t: Id)
    requires cl.pc == Find && Known(s.db, cl.w.call, t) && KeysUnique(s.db)
    ensures Moves(s, c, cl, Knowing(EndTx(Armed(s.db, cl), LockRow), Some(t)).(attempt := 0))
  {
    assert KeyTaken(s.db, cl.w.call.key) && ByKey(s.db, cl.w.call.key) == t;
    hide Armed, KeyTaken, ByKey, Booked, KeysUnique, DoInsert;
    hide DoLockRow, DoCountBooked, DoLockAcc, DoReadAcc, DoUpdateAcc, DoCommit;
  }

  predicate BothActive(db: Db, call: Call) {
    && call.CallTransfer? && call.from in db.accounts && call.to in db.accounts
    && db.accounts[call.from].status == Active && db.accounts[call.to].status == Active
  }

  /** A repeated call with the key and parameters of a PENDING, unbooked transfer books it. */
  lemma SoloRepeat(external: bool, es: seq<Event>, s: State, c: nat, call: Call, t: Id)
    returns (es': seq<Event>, s': State)
    requires At(external, es, s) && c !in s.clients && Idle(s) && CallOk(call) && ParamsValid(call)
    requires Known(s.db, call, t) && BothActive(s.db, call) && Funded(s.db, call)
    ensures es <= es' && At(external, es', s') && Idle(s')
    ensures After(s, c, Book(t, call.from, call.to, call.amount, !external), SuccessOf(external), s')
    ensures s'.clients[c].w.call == call && TellsStatus(s', c, t)
  {
    AtRows(external, es, s);
    hide TellsStatus, At, Exec, Ends, Path, DbInv, RowsOk, Known, BothActive, Funded, Guard, CallOk, ParamsValid;
    Start(external, es, s, c, call);
    var path := WholeRepeat(s, c, StartOf(call, |s.history|), t);
    KnownGuard(s.db, call, t, !external);
    es', s' := GoThrough(external, es + [Begin(c, call)], s, c, path,
                         Book(t, call.from, call.to, call.amount, !external), SuccessOf(external));
    BookedTellsStatus(s, c, t, call.from, call.to, call.amount, external, s');
  }

  /** The call has answered with the status that its transfer has. */
  predicate TellsStatus(s: State, c: nat, t: Id) {
    c in s.clients && t in s.db.transfers && s.clients[c].pc == Done(Accepted(s.db.transfers[t].status))
  }

  lemma BookedTellsStatus(s: State, c: nat, t: Id, from: Id, to: Id, amount: int, external: bool, s': State)
    requires After(s, c, Book(t, from, to, amount, !external), SuccessOf(external), s')
    ensures TellsStatus(s', c, t)
  {
    hide RowsOk, Booked;
  }

  lemma WholeRepeat(s: State, c: nat, cl: Client, t: Id) returns (path: seq<Client>)
    requires DbInv(s.db) && cl == StartOf(cl.w.call, cl.begun) && CallOk(cl.w.call) && ParamsValid(cl.w.call)
    requires Known(s.db, cl.w.call, t) && BothActive(s.db, cl.w.call) && Funded(s.db, cl.w.call)
    ensures path != [] && path[0] == cl && Path(s, c, path)
    ensures Ends(s, path[|path| - 1], Book(t, cl.w.call.from, cl.w.call.to, cl.w.call.amount, !s.external),
                 SuccessOf(s.external))
  {
    assert cl.w.call.CallTransfer?;
    hide Ends, Path, RowsOk, Known, BothActive, Funded;
    hide KeysUnique, AccountsOk, BookingsOk, EntriesOk, CallOk, ParamsValid, Facing;
    var p := PathOfRepeat(s, c, cl, t);
    FacesKnown(s.db, p[3], t);
    var r := PathToBooking(s, c, p[3], t);
    PathJoins(s, c, p, r);
    path := p[..|p| - 1] + r;
  }

  lemma KnownGuard(db: Db, call: Call, t: Id, settles: bool)
    requires DbInv(db) && ParamsValid(call) && Known(db, call, t) && Funded(db, call)
    ensures Guard(db, Book(t, call.from, call.to, call.amount, settles))
  {
    assert AccountOk(db, call.from) && AccountOk(db, call.to);
  }

  lemma FacesKnown(db: Db, cl: Client, t: Id)
    requires DbInv(db) && cl.w.call.CallTransfer? && Known(db, cl.w.call, t) && BothActive(db, cl.w.call)
    requires ParamsValid(cl.w.call) && CallOk(cl.w.call) && cl.w.tid == Some(t) && NoTx(cl)
    ensures Facing(db, cl, t)
  {
    assert AccountOk(db, cl.w.call.from) && AccountOk(db, cl.w.call.to);
  }

  lemma PathOfRepeat(s: State, c: nat, cl: Client, t: Id) returns (path: seq<Client>)
    requires cl == StartOf(cl.w.call, cl.begun) && Known(s.db, cl.w.call, t) && KeysUnique(s.db)
             && ParamsValid(cl.w.call)
    ensures |path| == 4 && path[0] == cl && Path(s, c, path)
    ensures path[3].pc == LockRow && path[3].w.call == cl.w.call && path[3].w.tid == Some(t) && NoTx(path[3])
  {
    hide Moves, Armed, ParamsValid, Booked, KeysUnique, KeyTaken;
    TransferValidates(s, c, cl);
    var cl1 := Armed(s.db, cl).(pc := Insert);
    assert KeyTaken(s.db, cl.w.call.key) by { KnownTakesKey(s.db, cl.w.call, t); }
    TransferKeyTaken(s, c, cl1);
    var cl2 := EndTx(Armed(s.db, cl1), Find);
    TransferFinds(s, c, cl2, t);
    path := [cl, cl1, cl2, Knowing(EndTx(Armed(s.db, cl2), LockRow), Some(t)).(attempt := 0)];
  }

  lemma KnownTakesKey(db: Db, call: Call, t: Id)
    requires Known(db, call, t)
    ensures KeyTaken(db, call.key)
  {
  }

  lemma ComesToInsert(external: bool, es: seq<Event>, s: State, c: nat, call: Call)
    returns (es': seq<Event>, cl: Client)
    requires At(external, es, s) && c !in s.clients && Idle(s) && CallOk(call) && ParamsValid(call)
    ensures es <= es' && At(external, es', Put(s, c, cl))
    ensures cl.pc == Insert && cl.w == Work(call, None, None, None, map[]) && Unwritten(cl)
  {
    hide At, DoStatement, Armed, Moves, NextLock, Typed;
    var begun := StartOf(call, |s.history|);
    Start(external, es, s, c, call);
    TransferValidates(s, c, begun);
    cl := Armed(s.db, begun).(pc := Insert);
    es' := Move(external, es + [Begin(c, call)], s, c, begun, cl);
  }

  /** A Transfer call on two existing accounts, with a key never used before, stands before its new row. */
  lemma SoloCreate(external: bool, es: seq<Event>, s: State, c: nat, call: Call, t: Id, now: nat)
    returns (es': seq<Event>, s': State)
    requires At(external, es, s) && c !in s.clients && Idle(s) && CallOk(call) && ParamsValid(call)
    requires !KeyTaken(s.db, call.key) && call.from in s.db.accounts && call.to in s.db.accounts && t !in s.db.issued
    ensures es <= es' && At(external, es', s') && Idle(s')
    ensures var op := Create(t, RowOf(call, now));
            && RowsOk(s.db) && Guard(s.db, op) && s'.db == Exec(s.db, op) && s'.history == s.history + [Commit(c, op)]
            && s'.external == external && s'.clients.Keys == s.clients.Keys + {c}
            && (forall d :: d in s.clients ==> s'.clients[d] == s.clients[d])
            && Created(s'.clients[c], call, t)
  {
    assert call.CallTransfer?;
    hide At, DoStatement, Armed, Moves, DbInv, RowsOk, Guard;
    hide Exec, CallOk, KeyTaken, NextLock, Typed, RowOf, ParamsValid;
    AtRows(external, es, s);
    var cl1: Client;
    es', cl1 := ComesToInsert(external, es, s, c, call);
    var cl2 := Knowing(EndTx(Armed(s.db, cl1), LockRow), Some(t)).(attempt := 0);
    var op := Create(t, RowOf(call, now));
    assert Guard(s.db, op) by { CreateGuard(s.db, call, t, now); }
    CreateStatement(s, cl1, t, now);
    assert Typed(cl1) by { InsertTyped(cl1); }
    es' := MoveAndCommit(external, es', s, c, cl1, t, now, op, cl2);
    s' := Committed(s, c, op, cl2);
  }

  lemma InsertTyped(cl: Client)
    requires cl.pc == Insert && cl.w.call.CallTransfer?
    ensures Typed(cl)
  {
  }

  predicate Created(cl: Client, call: Call, t: Id) {
    cl.pc == LockRow && cl.w.call == call && cl.w.tid == Some(t) && NoTx(cl) && cl.held == {}
  }

  lemma CreateGuard(db: Db, call: Call, t: Id, now: nat)
    requires CallOk(call) && ParamsValid(call) && !KeyTaken(db, call.key)
    requires call.from in db.accounts && call.to in db.accounts && t !in db.issued
    ensures Guard(db, Create(t, RowOf(call, now)))
  {
  }

  lemma CreateStatement(s: State, cl: Client, t: Id, now: nat)
    requires cl.pc == Insert && cl.w.call.CallTransfer? && !KeyTaken(s.db, cl.w.call.key)
    requires cl.w.call.from in s.db.accounts && cl.w.call.to in s.db.accounts
    ensures var out := DoStatement(s.db, Armed(s.db, cl), t, now, |s.history|, s.external);
            && out.log == Some(Create(t, RowOf(cl.w.call, now)))
            && out.cl == Knowing(EndTx(Armed(s.db, cl), LockRow), Some(t)).(attempt := 0)
  {
    hide Armed, KeyTaken, DoFind, DoLockRow, DoCountBooked, DoLockAcc, DoReadAcc, DoUpdateAcc, DoCommit;
  }

  /** The new row faces its client, whatever the accounts hold. */
  lemma NewRowFaces(db: Db, call: Call, t: Id, now: nat, cl: Client)
    requires DbInv(db) && CallOk(call) && ParamsValid(call)
    requires !KeyTaken(db, call.key) && BothActive(db, call) && t !in db.issued
    requires Guard(db, Create(t, RowOf(call, now))) && Created(cl, call, t)
    ensures var db' := Exec(db, Create(t, RowOf(call, now)));
            Facing(db', cl, t) && Known(db', call, t) && BothActive(db', call)
    ensures Exec(db, Create(t, RowOf(call, now))).accounts == db.accounts
  {
    BankLaws.UnknownHasNoEntries(db, OfTransfer(t));
    assert AccountOk(db, call.from) && AccountOk(db, call.to);
  }

  /** A funded Transfer call with a new key creates its transfer and books it. */
  lemma SoloTransfer(external: bool, es: seq<Event>, s: State, c: nat, call: Call, t: Id, now: nat)
    returns (es': seq<Event>, mid: State, s': State)
    requires At(external, es, s) && c !in s.clients && Idle(s) && CallOk(call) && ParamsValid(call)
    requires !KeyTaken(s.db, call.key) && BothActive(s.db, call) && t !in s.db.issued && Funded(s.db, call)
    ensures es <= es' && At(external, es', s') && Idle(s')
    ensures Guard(s.db, Create(t, RowOf(call, now))) && RowsOk(s.db)
            && mid.db == Exec(s.db, Create(t, RowOf(call, now)))
    ensures After(mid, c, Book(t, call.from, call.to, call.amount, !external), SuccessOf(external), s')
    ensures s'.clients.Keys == s.clients.Keys + {c} && TellsStatus(s', c, t)
  {
    AtRows(external, es, s);
    es', mid := SoloCreate(external, es, s, c, call, t, now);
    hide At, Exec, DbInv, CallOk, ParamsValid, KeyTaken, Guard, RowsOk, Facing, BothActive, Created, Known, After;
    hide TellsStatus;
    NewRowFaces(s.db, call, t, now, mid.clients[c]);
    assert Funded(mid.db, call);
    var es2 := es';
    es', s' := BookCreated(external, es2, mid, c, call, t);
    AfterAddsOne(mid, c, Book(t, call.from, call.to, call.amount, !external), SuccessOf(external), s');
    BookedTellsStatus(mid, c, t, call.from, call.to, call.amount, external, s');
  }

  lemma AfterAddsOne(s: State, c: nat, op: Op, result: Result, s': State)
    requires After(s, c, op, result, s')
    ensures s'.clients.Keys == s.clients.Keys + {c}
  {
  }

  lemma BookCreated(external: bool, es: seq<Event>, s: State, c: nat, call: Call, t: Id)
    returns (es': seq<Event>, s': State)
    requires At(external, es, s) && c in s.clients && Idle(s) && ParamsValid(call) && Created(s.clients[c], call, t)
    requires Facing(s.db, s.clients[c], t) && Known(s.db, call, t) && Funded(s.db, call)
    ensures es <= es' && At(external, es', s') && Idle(s')
    ensures After(s, c, Book(t, call.from, call.to, call.amount, !external), SuccessOf(external), s')
  {
    AtRows(external, es, s);
    hide At, Exec, DbInv, ParamsValid, Guard, Path, Ends, RowsOk, Facing, Created, Known, After, Funded;
    assert Put(s, c, s.clients[c]) == s;
    KnownGuard(s.db, call, t, !external);
    CreatedStands(s.clients[c], call, t);
    var path := PathToBooking(s, c, s.clients[c], t);
    es', s' := GoThrough(external, es, s, c, path, Book(t, call.from, call.to, call.amount, !external),
                         SuccessOf(external));
  }

  lemma CreatedStands(cl: Client, call: Call, t: Id)
    requires Created(cl, call, t)
    ensures cl.pc == LockRow && cl.w.call == call && cl.w.tid == Some(t)
  {
  }

  /** A Transfer call with a new key and too little money creates its transfer and is about to mark it FAILED: the
      transaction that read the balance is over, and nothing is locked. */
  lemma SoloLacksFunds(external: bool, es: seq<Event>, s: State, c: nat, call: Call, t: Id, now: nat)
    returns (es': seq<Event>, s': State)
    requires At(external, es, s) && c !in s.clients && Idle(s) && CallOk(call) && ParamsValid(call)
    requires !KeyTaken(s.db, call.key) && BothActive(s.db, call) && t !in s.db.issued
    requires s.db.accounts[call.from].balance < call.amount
    ensures es <= es' && At(external, es', s') && Idle(s')
    ensures Guard(s.db, Create(t, RowOf(call, now))) && RowsOk(s.db) && s'.db == Exec(s.db, Create(t, RowOf(call, now)))
    ensures s'.clients.Keys == s.clients.Keys + {c} && AboutToFail(s', c, t) && s'.clients[c].w.call == call
    ensures Known(s'.db, call, t) && BothActive(s'.db, call) && s'.db.accounts == s.db.accounts
  {
    AtRows(external, es, s);
    var mid: State;
    es', mid := SoloCreate(external, es, s, c, call, t, now);
    hide At, Exec, DbInv, CallOk, ParamsValid, KeyTaken, Guard, RowsOk, Facing, Created, Known, AboutToFail;
    NewRowFaces(s.db, call, t, now, mid.clients[c]);
    hide BothActive;
    var es2 := es';
    es', s' := FailCreated(external, es2, mid, c, call, t);
  }

  lemma FailCreated(external: bool, es: seq<Event>, s: State, c: nat, call: Call, t: Id)
    returns (es': seq<Event>, s': State)
    requires At(external, es, s) && c in s.clients && Idle(s)
    requires Created(s.clients[c], call, t) && Facing(s.db, s.clients[c], t)
    requires call.CallTransfer? && call.from in s.db.accounts && s.db.accounts[call.from].balance < call.amount
    ensures es <= es' && At(external, es', s') && Idle(s') && s'.db == s.db
    ensures s'.clients.Keys == s.clients.Keys && AboutToFail(s', c, t) && s'.clients[c].w.call == call
  {
    hide At, Path, Facing, Created;
    assert Put(s, c, s.clients[c]) == s;
    CreatedStands(s.clients[c], call, t);
    var path := PathToMarkFail(s, c, s.clients[c], t);
    es' := Follow(external, es, s, c, path);
    s' := Put(s, c, path[|path| - 1]);
  }

  predicate AboutToFail(s: State, c: nat, t: Id) {
    && c in s.clients && s.clients[c].pc == MarkFail && s.clients[c].w.call.CallTransfer?
       && s.clients[c].w.tid == Some(t)
    && s.clients[c].held == {}
  }

  /** The client that is about to mark a transfer FAILED does so. */
  lemma SoloMarkFail(external: bool, es: seq<Event>, s: State, c: nat, t: Id) returns (es': seq<Event>, s': State)
    requires At(external, es, s) && AboutToFail(s, c, t) && Idle(s) && t in s.db.transfers
    ensures es <= es' && At(external, es', s') && Idle(s') && After(s, c, MarkFailed(t), Invalid(true), s')
    ensures s'.clients[c].w.call == s.clients[c].w.call
  {
    assert Guard(s.db, MarkFailed(t)) && Put(s, c, s.clients[c]) == s;
    hide At, Ends, DbInv, RowsOk, Exec, After, Guard, Path, Idle;
    AtRows(external, es, s);
    assert Alone(s, c) by { IdleIsAlone(s, c); }
    OneStop(s, c);
    MarkFailEnds(s, s.clients[c], t);
    es', s' := GoThrough(external, es, s, c, [s.clients[c]], MarkFailed(t), Invalid(true));
  }

  lemma OneStop(s: State, c: nat)
    requires c in s.clients
    ensures Path(s, c, [s.clients[c]])
  {
  }

  lemma MarkFailEnds(s: State, cl: Client, t: Id)
    requires cl.pc == MarkFail && cl.w.call.CallTransfer? && cl.w.tid == Some(t) && t in s.db.transfers
    ensures Ends(s, cl, MarkFailed(t), Invalid(true))
  {
    hide Armed, DoInsert, DoFind, DoLockRow, DoCountBooked, DoLockAcc, DoReadAcc, DoUpdateAcc, DoCommit;
  }

  lemma SoloOpen(external: bool, es: seq<Event>, s: State, c: nat, a: Id) returns (es': seq<Event>, s': State)
    requires At(external, es, s) && c !in s.clients && Idle(s) && a !in s.db.issued
    ensures es <= es' && At(external, es', s') && Idle(s') && After(s, c, Open(a), Completed, s')
  {
    AtRows(external, es, s);
    assert Guard(s.db, Open(a));
    hide At, DbInv, RowsOk, Exec, Guard, DoStatement, Armed, Typed, NextLock;
    var cl := StartOf(CallOpen, |s.history|);
    Start(external, es, s, c, CallOpen);
    OpenStatement(s, cl, a);
    var cl' := EndTx(Armed(s.db, cl), Done(Completed));
    es' := MoveAndCommit(external, es + [Begin(c, CallOpen)], s, c, cl, a, 0, Open(a), cl');
    s' := Committed(s, c, Open(a), cl');
    ComesAfter(s, c, Open(a), cl', Completed);
  }

  lemma OpenStatement(s: State, cl: Client, a: Id)
    requires cl.pc == OpenAcc
    ensures Typed(cl)
    ensures var out := DoStatement(s.db, Armed(s.db, cl), a, 0, |s.history|, s.external);
            out.log == Some(Open(a)) && out.cl == EndTx(Armed(s.db, cl), Done(Completed))
  {
    hide Armed, DoInsert, DoFind, DoLockRow, DoCountBooked, DoLockAcc, DoReadAcc, DoUpdateAcc, DoCommit;
  }
}
