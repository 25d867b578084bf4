/** What every run does to the committed tables: one atomic operation at a time, and no transfer ever comes back. */
module Steps {
  import opened Common
  import opened Bank
  import opened BankLaws
  import opened History
  import opened Protocol
  import opened Invariant
  import opened Refinement

  /** The operation that an event commits, if any. */
  ghost function OpOf(s: State, e: Event): Option<Op>
    requires Enabled(s, e)
  {
    if e.Do? then DoStatement(s.db, s.clients[e.client], e.newId, e.now, |s.history|, s.external).log else None
  }

  ghost predicate StepIs(s: State, c: nat, op: Option<Op>, s': State) {
    match op
    case None => s'.db == s.db && s'.history == s.history
    case Some(o) => RowsOk(s.db) && Guard(s.db, o) && s'.db == Exec(s.db, o) && s'.history == s.history + [Commit(c, o)]
  }

  lemma StepCommits(s: State, e: Event)
    requires Inv(s) && Enabled(s, e)
    ensures DbInv(s.db) && StepIs(s, e.client, OpOf(s, e), Apply(s, e))
  {
    InvKnowsDb(s);
    if e.Do? { DoCommits(s, e.client, e.newId, e.now); }
    hide Inv, DbInv, Guard, Exec, DoStatement, NextLock, Typed, Free;
  }

  lemma DoCommits(s: State, c: nat, newId: Id, now: nat)
    requires Inv(s) && Enabled(s, Do(c, newId, now))
    ensures StepIs(s, c, OpOf(s, Do(c, newId, now)), Apply(s, Do(c, newId, now)))
  {
    InvKnowsDb(s);
    assert ClientOk(s, s.clients[c]);
    assert RowsOk(s.db) by { InvRows(s.db); }
    hide DoStatement, Exec, Shape, Linked, NextLock, Guard, OpLocks, Inv, RowsOk, AccountsOk, EntriesOk, BookingsOk;
    StatementOk(s.db, s.clients[c], newId, now, |s.history|, s.external);
  }

  /** An event appends to the history, if it changes it. */
  lemma CommitsAppend(s: State, e: Event)
    requires Inv(s) && Enabled(s, e)
    ensures s.history <= Apply(s, e).history
  {
    hide Inv, Enabled, Apply, OpOf;
    StepCommits(s, e);
  }

  /** The run up to its n-th event. */
  ghost function Moment(external: bool, es: seq<Event>, n: nat): State
    requires n <= |es|
  {
    StateAfter(external, es[..n])
  }

  lemma {:induction false} PrefixIsValid(external: bool, es: seq<Event>, n: nat)
    requires ValidRun(external, es) && n <= |es|
    ensures ValidRun(external, es[..n])
    decreases |es|
  {
    hide Enabled;
    if n == |es| { assert es[..n] == es; }
    else {
      PrefixIsValid(external, es[..|es| - 1], n);
      assert es[..|es| - 1][..n] == es[..n];
    }
  }

  /** The last step of a run, seen from the state before it. */
  lemma LastStep(external: bool, es: seq<Event>) returns (s: State, e: Event)
    requires ValidRun(external, es) && es != []
    ensures s == StateAfter(external, es[..|es| - 1]) && e == es[|es| - 1] && Inv(s) && Enabled(s, e)
    ensures StateAfter(external, es) == Apply(s, e) && ValidRun(external, es[..|es| - 1])
  {
    s := StateAfter(external, es[..|es| - 1]);
    e := es[|es| - 1];
    hide Enabled, Apply, Inv;
    EveryInterleavingRefinesTheAtomicBank(external, es[..|es| - 1]);
  }

  // -------------------------------------------------------------------------------- identifiers never come back

  lemma StepIssued(s: State, c: nat, op: Option<Op>, s': State, t: Id)
    requires DbInv(s.db) && StepIs(s, c, op, s')
    ensures s.db.issued <= s'.db.issued
    ensures t in s.db.issued && t in s'.db.transfers ==> t in s.db.transfers
    ensures t in s'.db.transfers ==> t in s'.db.issued
  {
    match op
    case None =>
    case Some(o) =>
      ExecIssued(s.db, o);
      if !o.Truncate? { ExecRows(s.db, o); }
      hide Exec;
  }

  /** A transfer that exists at two moments exists at all moments between. */
  lemma {:induction false} NoTransferComesBack(external: bool, es: seq<Event>, n: nat, t: Id)
    requires ValidRun(external, es) && n <= |es|
    requires t in Moment(external, es, n).db.transfers
    ensures t in StateAfter(external, es).db.issued
    ensures t in StateAfter(external, es).db.transfers && n < |es| ==>
              t in StateAfter(external, es[..|es| - 1]).db.transfers
    decreases |es|
  {
    hide Enabled, Apply, Inv, StepIs;
    if n == |es| {
      assert es[..n] == es;
      EveryInterleavingRefinesTheAtomicBank(external, es);
      InvKnowsDb(StateAfter(external, es)) by { InvRefined(StateAfter(external, es)); }
    } else {
      var s, e := LastStep(external, es);
      assert es[..|es| - 1][..n] == es[..n];
      NoTransferComesBack(external, es[..|es| - 1], n, t);
      StepCommits(s, e);
      StepIssued(s, e.client, OpOf(s, e), Apply(s, e), t);
    }
  }

  lemma InvRefined(s: State)
    requires Inv(s)
    ensures Refines(s)
  {
  }

  lemma {:induction false} ExternalStays(external: bool, es: seq<Event>)
    ensures StateAfter(external, es).external == external
  {
    hide Enabled, DoStatement;
    if es != [] { ExternalStays(external, es[..|es| - 1]); }
  }

  /** Clients stay, with the calls they began with. */
  lemma ClientsStay(s: State, e: Event)
    requires Enabled(s, e)
    ensures forall d :: d in s.clients ==>
              d in Apply(s, e).clients && Apply(s, e).clients[d].w.call == s.clients[d].w.call
    ensures forall d :: d in s.clients ==> Apply(s, e).clients[d].begun == s.clients[d].begun
    ensures forall d :: d in s.clients && d != e.client ==> Apply(s, e).clients[d] == s.clients[d]
    ensures forall d :: d in Apply(s, e).clients ==> d in s.clients || d == e.client
  {
    hide DoStatement, NextLock, Free;
  }

  /** A client of a run is a client of every longer one, with the call it has and the moment it began it. */
  lemma {:induction false} CallsStay(external: bool, es: seq<Event>, es': seq<Event>, c: nat)
    requires ValidRun(external, es') && es <= es' && c in StateAfter(external, es).clients
    ensures c in StateAfter(external, es').clients
    ensures StateAfter(external, es').clients[c].begun == StateAfter(external, es).clients[c].begun
    ensures StateAfter(external, es').clients[c].w.call == StateAfter(external, es).clients[c].w.call
    decreases |es'|
  {
    hide Enabled, Apply, Inv;
    if |es| == |es'| {
      assert es == es';
    } else {
      var s, e := LastStep(external, es');
      CallsStay(external, es, es'[..|es'| - 1], c);
      ClientsStay(s, e);
    }
  }
}
