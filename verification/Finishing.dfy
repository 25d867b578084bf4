/** Simulator and bank together can finish: from every reachable state at rest with two funded accounts, a run of the
    simulator transfers between them, records the answer and announces FINISHED. */
module Finishing {
  import opened Common
  import opened Bank
  import opened History
  import opened Protocol
  import opened Invariant
  import opened Refinement
  import opened Steps
  import opened Simulation
  import opened Replies
  import Answers
  import Solo
  import Runner
  import BankLaws
  import Calls
  import Crossing
  import Ledger
  import Money

  /** The moves are a run of both, and have come to m. */
  ghost predicate Reaches(external: bool, vs: seq<Move>, m: System) {
    ValidMoves(external, vs) && After(external, vs) == m
  }

  lemma OneMove(external: bool, vs: seq<Move>, m: System, v: Move)
    requires Reaches(external, vs, m) && Can(m, v)
    ensures Reaches(external, vs + [v], Next(m, v))
  {
    hide Can, Next;
    assert (vs + [v])[..|vs|] == vs;
  }

  lemma OneSimMove(external: bool, vs: seq<Move>, m: System, e: Runner.Event)
    requires Reaches(external, vs, m) && Runner.Enabled(m.sim, e) && !e.Count? && !e.Record? && !e.Truncate?
    ensures Reaches(external, vs + [BySim(e)], m.(sim := Runner.Apply(m.sim, e)))
  {
    hide Reaches, Runner.Enabled, Runner.Apply;
    OneMove(external, vs, m, BySim(e));
  }

  /** TRUNCATE shows in the history. */
  lemma TruncateShows(s: State, e: Event)
    requires Enabled(s, e) && e.Do? && AtTruncate(s, e.client)
    ensures Apply(s, e).history == s.history + [Commit(e.client, Truncate)]
  {
    hide NextLock;
  }

  /** What clients of the bank do on their own, short of truncating, they can do beside the simulator. */
  lemma {:induction false} BankGoesOn(external: bool, vs: seq<Move>, m: System, es: seq<Event>, es': seq<Event>)
    returns (vs': seq<Move>)
    requires Reaches(external, vs, m) && ValidRun(external, es') && es <= es' && StateAfter(external, es) == m.bank
    requires var h' := StateAfter(external, es').history;
             forall i :: |m.bank.history| <= i < |h'| ==> !h'[i].op.Truncate?
    ensures Reaches(external, vs', m.(bank := StateAfter(external, es')))
    decreases |es'|
  {
    hide Reaches, Enabled, Apply, Inv;
    if |es| == |es'| {
      assert es == es' && m.(bank := StateAfter(external, es')) == m;
      vs' := vs;
    } else {
      var before := es'[..|es'| - 1];
      var s, e := LastStep(external, es');
      Answers.HistoryGrows(external, before, es');
      Answers.HistoryGrows(external, es, before);
      var h' := StateAfter(external, es').history;
      assert forall i :: 0 <= i < |s.history| ==> s.history[i] == h'[i];
      vs' := BankGoesOn(external, vs, m, es, before);
      BankMoves(external, vs', m.(bank := s), e, |m.bank.history|);
      vs' := vs' + [ByBank(e)];
    }
  }

  lemma BankMoves(external: bool, vs: seq<Move>, m: System, e: Event, h: nat)
    requires Reaches(external, vs, m) && Enabled(m.bank, e) && h <= |m.bank.history|
    requires var h' := Apply(m.bank, e).history; forall i :: h <= i < |h'| ==> !h'[i].op.Truncate?
    ensures Reaches(external, vs + [ByBank(e)], m.(bank := Apply(m.bank, e)))
  {
    hide Reaches, Enabled, Apply, AtTruncate;
    var n, h' := |m.bank.history|, Apply(m.bank, e).history;
    assert n < |h'| ==> !h'[n].op.Truncate?;
    if e.Do? && AtTruncate(m.bank, e.client) { TruncateShows(m.bank, e); }
    OneMove(external, vs, m, ByBank(e));
  }

  // ------------------------------------------------------------------------------------------ a run of one transfer

  const ONE := Runner.Config(2, 1, 1, 1)

  /** Nobody runs a simulation or a reset, and nobody holds a lock. */
  predicate AtRest(m: System) {
    !Runner.Active(m.sim.board.phase) && m.sim.resetting == None && Solo.Idle(m.bank)
  }

  /** Money can go from a to b under a key that nobody has used. */
  predicate CanPay(db: Db, a: Id, b: Id, key: string) {
    && a != b && IsActive(db, a) && IsActive(db, b)
    && 100 <= db.accounts[a].balance && 0 <= db.accounts[b].balance <= MAX_INT64 - 100 && !InUse(db, key)
  }

  /** The only worker of run r has its only job in its hands. */
  predicate HasJob(sim: Runner.State, r: nat, worker: Runner.Worker) {
    && sim.resetting == None && sim.board.runID == r && sim.board.phase == Runner.Running
    && Runner.At(sim, r, Runner.Dispatching)
    && sim.runs[r] == Runner.Execution(ONE, Runner.Dispatching, 2, [worker], sim.runs[r].counters, sim.runs[r].outcomes)
  }

  lemma RunStarts(external: bool, vs: seq<Move>, m: System) returns (vs': seq<Move>, sim: Runner.State)
    requires Reaches(external, vs, m) && AtRest(m)
    ensures Reaches(external, vs', m.(sim := sim)) && HasJob(sim, m.sim.started + 1, Runner.Taken(1))
    ensures sim.runs[m.sim.started + 1].counters == Runner.ZERO && sim.runs[m.sim.started + 1].outcomes == map[]
  {
    hide Reaches, Solo.Idle;
    var r := m.sim.started + 1;
    OneSimMove(external, vs, m, Runner.Start(ONE));
    var m1 := m.(sim := Runner.Apply(m.sim, Runner.Start(ONE)));
    OneSimMove(external, vs + [BySim(Runner.Start(ONE))], m1, Runner.SeedDone(r, true));
    var m2 := m1.(sim := Runner.Apply(m1.sim, Runner.SeedDone(r, true)));
    vs' := vs + [BySim(Runner.Start(ONE))] + [BySim(Runner.SeedDone(r, true))];
    assert m2.sim.runs[r].workers == [Runner.Waiting];
    OneSimMove(external, vs', m2, Runner.Send(r, 0));
    sim := Runner.Apply(m2.sim, Runner.Send(r, 0));
    vs' := vs' + [BySim(Runner.Send(r, 0))];
    assert m2.(sim := sim) == m.(sim := sim);
  }

  /** The worker calls Transfer. */
  lemma JobStarts(external: bool, vs: seq<Move>, m: System, r: nat, c: nat, a: Id, b: Id)
    returns (vs': seq<Move>, m': System)
    requires Reaches(external, vs, m) && HasJob(m.sim, r, Runner.Taken(1)) && c !in m.bank.clients && a != b
    ensures Reaches(external, vs', m') && HasJob(m'.sim, r, Runner.Transferring(1))
    ensures m'.bank == Put(m.bank, c, StartOf(JobCall(Job(r, 1), a, b, 100), |m.bank.history|))
    ensures Job(r, 1) in m'.calls && m'.calls[Job(r, 1)] == c
    ensures m'.sim.runs[r].counters == Runner.Dispatched(m.sim.runs[r].counters)
    ensures m'.sim.runs[r].outcomes == m.sim.runs[r].outcomes
    ensures Enabled(m.bank, Begin(c, JobCall(Job(r, 1), a, b, 100)))
  {
    hide Reaches, StartOf, JobKey;
    var v := BeginJob(r, 0, c, a, b, 100);
    assert JobOf(m, v) == Job(r, 1);
    OneMove(external, vs, m, v);
    vs', m' := vs + [v], Next(m, v);
  }

  /** The worker records the answer, the channel is closed, and the run comes to its end. */
  lemma RunEnds(external: bool, vs: seq<Move>, m: System, r: nat, c: nat) returns (vs': seq<Move>, m': System)
    requires Reaches(external, vs, m) && HasJob(m.sim, r, Runner.Transferring(1))
    requires Job(r, 1) in m.calls && m.calls[Job(r, 1)] == c && c in m.bank.clients
    requires m.bank.clients[c].pc.Done? && m.bank.clients[c].pc.result.Accepted?
    requires m.sim.runs[r].counters == Runner.Counters(1, 0, 0, 0, 0) && m.sim.runs[r].outcomes == map[]
    ensures Reaches(external, vs', m') && m'.bank == m.bank
    ensures m'.sim.board.phase == Runner.Finished && m'.sim.board.runID == r && r in m'.sim.runs
    ensures m'.sim.runs[r].counters == Runner.Counters(1, 1, 0, 0, 0)
  {
    hide Reaches;
    var v := RecordJob(r, 0);
    OneMove(external, vs, m, v);
    var m1 := Next(m, v);
    assert m1.bank == m.bank && m1.sim.runs[r].workers == [Runner.Waiting];
    vs', m' := LastSteps(external, vs + [v], m1, r);
  }

  lemma LastSteps(external: bool, vs: seq<Move>, m: System, r: nat) returns (vs': seq<Move>, m': System)
    requires Reaches(external, vs, m) && HasJob(m.sim, r, Runner.Waiting)
    requires m.sim.runs[r].counters == Runner.Counters(1, 1, 0, 0, 0)
    ensures Reaches(external, vs', m') && m'.bank == m.bank
    ensures m'.sim.board.phase == Runner.Finished && m'.sim.board.runID == r && r in m'.sim.runs
    ensures m'.sim.runs[r].counters == Runner.Counters(1, 1, 0, 0, 0)
  {
    hide Reaches;
    OneSimMove(external, vs, m, Runner.CloseJobs(r));
    var m1 := m.(sim := Runner.Apply(m.sim, Runner.CloseJobs(r)));
    vs' := vs + [BySim(Runner.CloseJobs(r))];
    OneSimMove(external, vs', m1, Runner.WorkerQuits(r, 0));
    var m2 := m1.(sim := Runner.Apply(m1.sim, Runner.WorkerQuits(r, 0)));
    vs' := vs' + [BySim(Runner.WorkerQuits(r, 0))];
    assert m2.sim.runs[r].workers == [Runner.Quit];
    OneSimMove(external, vs', m2, Runner.Decide(r));
    var m3 := m2.(sim := Runner.Apply(m2.sim, Runner.Decide(r)));
    vs' := vs' + [BySim(Runner.Decide(r))];
    OneSimMove(external, vs', m3, Runner.Announce(r));
    m' := m3.(sim := Runner.Apply(m3.sim, Runner.Announce(r)));
    vs' := vs' + [BySim(Runner.Announce(r))];
  }

  /** The reply to the job's call: the transfer is booked. */
  lemma PaymentReply(external: bool, db: Db, call: Call, id: Id, now: nat)
    requires DbInv(db) && call.CallTransfer? && CanPay(db, call.from, call.to, call.key) && id !in db.issued
    requires call.key != "" && call.amount == 100
    ensures var r := TransferReply(external, db, call, id, now);
            && r.result == Accepted(if external then Pending else Settled)
            && Paid(db, r.db, call, id)
  {
    BankLaws.UnknownHasNoEntries(db, Ledger.OfTransfer(id));
    BookedHasEntries(db, id);
    hide DbInv, Booked;
    var row := Transfer(call.from, call.to, call.amount, call.key, Pending, None, None, now);
    var created := Db(db.accounts, db.transfers[id := row], db.entries, db.issued + {id});
    assert !HasEntries(created, id);
    BookPays(external, created, id);
    hide BookReply, HasEntries, InUse;
  }

  /** Transfer id is there with an entry, and 100 went from one account to the other. */
  predicate Paid(db: Db, db': Db, call: Call, id: Id)
    requires call.CallTransfer? && call.from in db.accounts && call.to in db.accounts
  {
    && id in db'.transfers && db'.transfers[id].key == call.key && HasEntries(db', id)
    && call.from in db'.accounts && db'.accounts[call.from].balance == db.accounts[call.from].balance - 100
    && call.to in db'.accounts && db'.accounts[call.to].balance == db.accounts[call.to].balance + 100
  }

  lemma BookPays(external: bool, db: Db, t: Id)
    requires t in db.transfers && db.transfers[t].status == Pending && !HasEntries(db, t)
    requires var row := db.transfers[t];
             && row.from != row.to && IsActive(db, row.from) && IsActive(db, row.to) && row.amount == 100
             && 100 <= db.accounts[row.from].balance && db.accounts[row.to].balance <= MAX_INT64 - 100
    ensures var r, row := BookReply(external, db, t), db.transfers[t];
            && r.result == Accepted(if external then Pending else Settled)
            && t in r.db.transfers && r.db.transfers[t].key == row.key && HasEntries(r.db, t)
            && row.from in r.db.accounts && r.db.accounts[row.from].balance == db.accounts[row.from].balance - 100
            && row.to in r.db.accounts && r.db.accounts[row.to].balance == db.accounts[row.to].balance + 100
  {
    var r := BookReply(external, db, t);
    assert r.db.entries[|db.entries|].transfer == Some(t);
  }

  /** A job's call commits no reset. */
  lemma NoTruncate(external: bool, es: seq<Event>, es': seq<Event>, c: nat)
    requires ValidRun(external, es') && c in StateAfter(external, es').clients
    requires StateAfter(external, es').clients[c].w.call.CallTransfer?
    requires Answers.OwnSince(StateAfter(external, es).history, StateAfter(external, es').history, c)
    ensures var h, h' := StateAfter(external, es).history, StateAfter(external, es').history;
            forall i :: |h| <= i < |h'| ==> !h'[i].op.Truncate?
  {
    Calls.CallInvAlways(external, es');
    assert Calls.OwnCommits(StateAfter(external, es').history, c, StateAfter(external, es').clients[c]);
    hide StateAfter, ValidRun, Calls.CallInv;
  }

  /** From any reachable state of simulator and bank at rest, with two accounts that can pay each other under the key of
      the next run's first job, that run can be started, makes its one transfer, and announces FINISHED with one
      transfer dispatched and accepted; the money has moved, and the transfer is in the books. */
  lemma SimulationCanFinish(external: bool, vs: seq<Move>, m: System, c: nat, a: Id, b: Id)
    returns (vs': seq<Move>, m': System, t: Id)
    requires Reaches(external, vs, m) && AtRest(m) && c !in m.bank.clients
    requires CanPay(m.bank.db, a, b, JobKey(Job(m.sim.started + 1, 1)))
    ensures Reaches(external, vs', m') && m'.sim.board.phase == Runner.Finished
    ensures m'.sim.board.runID == m.sim.started + 1 && m'.sim.board.runID in m'.sim.runs
    ensures m'.sim.runs[m'.sim.board.runID].counters == Runner.Counters(1, 1, 0, 0, 0)
    ensures a in m'.bank.db.accounts && m'.bank.db.accounts[a].balance == m.bank.db.accounts[a].balance - 100
    ensures b in m'.bank.db.accounts && m'.bank.db.accounts[b].balance == m.bank.db.accounts[b].balance + 100
    ensures t in m'.bank.db.transfers && m'.bank.db.transfers[t].key == JobKey(Job(m.sim.started + 1, 1))
            && HasEntries(m'.bank.db, t)
  {
    hide Reaches, JobKey, Solo.Idle, Runner.Active, HasEntries, HasJob;
    var r := m.sim.started + 1;
    var call := JobCall(Job(r, 1), a, b, 100);
    var vs1, sim := RunStarts(external, vs, m);
    var vs2, m2 := JobStarts(external, vs1, m.(sim := sim), r, c, a, b);
    var s';
    vs', s', t := JobRuns(external, vs1, m.(sim := sim), vs2, m2, r, c, a, b);
    vs', m' := RunEnds(external, vs', m2.(bank := s'), r, c);
  }

  /** The job's call in the bank, to its end. */
  lemma JobAnswered(external: bool, es: seq<Event>, s: State, c: nat, call: Call)
    returns (es': seq<Event>, s': State, t: Id)
    requires Solo.At(external, es, s) && Solo.Idle(s) && c !in s.clients && CallOk(call) && call.CallTransfer?
    requires CanPay(s.db, call.from, call.to, call.key) && call.key != "" && call.amount == 100
    ensures ValidRun(external, es') && es + [Begin(c, call)] <= es' && StateAfter(external, es') == s'
    ensures c in s'.clients && s'.clients[c].pc.Done? && s'.clients[c].pc.result.Accepted?
    ensures s.history <= s'.history && forall i :: |s.history| <= i < |s'.history| ==> !s'.history[i].op.Truncate?
    ensures Paid(s.db, s'.db, call, t)
  {
    assert ValidRun(external, es) && StateAfter(external, es) == s;
    Solo.AtRows(external, es, s);
    hide Solo.Idle, HasEntries, DbInv, CanPay, Paid, StateAfter, ValidRun, CallOk, Solo.At;
    var now: nat;
    es', t, now := Answers.EveryCallIsAnswered(external, es, c, call);
    PaymentReply(external, s.db, call, t, now);
    s' := StateAfter(external, es');
    Answers.SinceBegin(external, es, es', c, call);
    NoTruncate(external, es, es', c);
  }

  lemma JobRuns(external: bool, vs1: seq<Move>, m1: System, vs2: seq<Move>, m2: System, r: nat, c: nat, a: Id, b: Id)
    returns (vs': seq<Move>, s': State, t: Id)
    requires Reaches(external, vs1, m1) && Reaches(external, vs2, m2) && Solo.Idle(m1.bank) && c !in m1.bank.clients
    requires CanPay(m1.bank.db, a, b, JobKey(Job(r, 1)))
    requires m2.bank == Put(m1.bank, c, StartOf(JobCall(Job(r, 1), a, b, 100), |m1.bank.history|))
    ensures Reaches(external, vs', m2.(bank := s'))
    ensures c in s'.clients && s'.clients[c].pc.Done? && s'.clients[c].pc.result.Accepted?
    ensures Paid(m1.bank.db, s'.db, JobCall(Job(r, 1), a, b, 100), t)
  {
    var call := JobCall(Job(r, 1), a, b, 100);
    BothSidesRun(external, vs1);
    var es1 := BankRun(external, vs1);
    assert Solo.At(external, es1, m1.bank);
    JobCallOk(Job(r, 1), a, b);
    Solo.Start(external, es1, m1.bank, c, call);
    assert StateAfter(external, es1 + [Begin(c, call)]) == m2.bank;
    hide Reaches, JobKey, Solo.Idle, BankRun, CanPay, Paid, JobCall, StateAfter, ValidRun, Solo.At;
    var es: seq<Event>;
    es, s', t := JobAnswered(external, es1, m1.bank, c, call);
    vs' := BankGoesOn(external, vs2, m2, es1 + [Begin(c, call)], es);
  }

  lemma JobCallOk(j: Job, a: Id, b: Id)
    ensures var call := JobCall(j, a, b, 100);
            CallOk(call) && call.CallTransfer? && call.key == JobKey(j) && call.key != "" && call.amount == 100
            && call.from == a && call.to == b
  {
    hide Money.Digits;
  }

  /** From the empty bank: two accounts are opened, 100 is deposited, and the simulator's first run finishes. */
  lemma FirstRunFinishes(external: bool) returns (vs: seq<Move>, m: System)
    ensures ValidMoves(external, vs) && After(external, vs) == m && m.sim.board.phase == Runner.Finished
    ensures m.sim.board.runID == 1 && 1 in m.sim.runs
    ensures m.sim.runs[1].counters == Runner.Counters(1, 1, 0, 0, 0)
  {
    var es, s := Crossing.Deposits(external);
    var m0 := System(Init(external), Runner.INIT, map[]);
    assert Reaches(external, [], m0);
    assert ValidRun(external, es) && StateAfter(external, es) == s && StateAfter(external, []) == Init(external);
    var m1 := m0.(bank := s);
    assert AtRest(m1) && 3 !in s.clients;
    FirstCanPay(s.db, JobKey(Job(1, 1)));
    assert forall f, u {:trigger Reaches(external, f, u)} ::
        Reaches(external, f, u) ==> ValidMoves(external, f) && After(external, f) == u;
    hide Reaches, JobKey, StateAfter, ValidRun, CanPay, AtRest, After, ValidMoves;
    vs := BankGoesOn(external, [], m0, [], es);
    var t: Id;
    vs, m, t := SimulationCanFinish(external, vs, m1, 3, 0, 1);
  }

  lemma FirstCanPay(db: Db, key: string)
    requires db.accounts == map[0 := Account(100, 1, Active), 1 := Account(0, 0, Active)] && db.transfers == map[]
    ensures CanPay(db, 0, 1, key)
  {
  }
}
