/** The simulator and the bank together: workers make Transfer calls for their jobs and record what these answer, a
    reset truncates the tables while it holds the mutex, and any other clients do as they please. */
module Simulation {
  import opened Common
  import opened Bank
  import opened History
  import opened Protocol
  import opened Refinement
  import opened Steps
  import opened Solo
  import opened RunAccounting
  import BankCalls = Calls
  import Keys
  import Money
  import Runner
  import Simulator

  const MIN_TRANSFER_CENTS := 100
  const MAX_TRANSFER_CENTS := 40000
  const MAX_CONFLICT_ATTEMPTS := 5

  /** Job n of a run. */
  datatype Job = Job(run: nat, n: nat)

  /** sim-<run>-<n>; the text of the run is that of its number here. */
  function JobKey(j: Job): string { "sim-" + Money.Digits(j.run) + "-" + Money.Digits(j.n) }

  function JobCall(j: Job, from: Id, to: Id, amount: int): Call {
    CallTransfer(from, to, amount, JobKey(j), MAX_CONFLICT_ATTEMPTS)
  }

  /** The call of a job: between two accounts, of 1.00 to 400.00, under the key of its run and its number, and repeated
      on a CONFLICT up to the fifth time. */
  predicate IsJobCall(call: Call, j: Job) {
    && call.CallTransfer? && ParamsValid(call) && call.key == "sim-" + Money.Digits(j.run) + "-" + Money.Digits(j.n)
    && call.from != call.to && 100 <= call.amount <= 40000 && call.tries == 5
  }

  /** calls names the client that transfers for a job. */
  datatype System = System(bank: State, sim: Runner.State, calls: map<Job, nat>)

  datatype Move =
    | ByBank(event: Event)
    | BySim(step: Runner.Event)
    | BeginJob(run: nat, worker: nat, client: nat, from: Id, to: Id, amount: int)
    | RecordJob(run: nat, worker: nat)
    | Wipe(client: nat, newId: Id, now: nat)

  predicate AtTruncate(s: State, c: nat) { c in s.clients && s.clients[c].pc == TruncateAll }

  /** How the two sides go together: only workers count and record, with a call of their own, and only a reset of the
      runner truncates. */
  predicate Fits(m: System, v: Move) {
    match v
    case ByBank(e) => !(e.Do? && AtTruncate(m.bank, e.client))
    case BySim(e) => !e.Count? && !e.Record? && !e.Truncate?
    case BeginJob(r, w, _, from, to, amount) =>
      && Runner.WorkerIs(m.sim, r, w) && m.sim.runs[r].workers[w].Taken?
      && from != to && MIN_TRANSFER_CENTS <= amount <= MAX_TRANSFER_CENTS
    case RecordJob(r, w) =>
      && Runner.WorkerIs(m.sim, r, w) && m.sim.runs[r].workers[w].Transferring?
      && var j := Job(r, m.sim.runs[r].workers[w].job);
         j in m.calls && m.calls[j] in m.bank.clients && m.bank.clients[m.calls[j]].pc.Done?
    case Wipe(c, _, _) => AtTruncate(m.bank, c)
  }

  /** The job of the worker that moves. */
  function JobOf(m: System, v: Move): Job
    requires Fits(m, v) && (v.BeginJob? || v.RecordJob?)
  {
    Job(v.run, m.sim.runs[v.run].workers[v.worker].job)
  }

  function BankStep(m: System, v: Move): Option<Event>
    requires Fits(m, v)
  {
    match v
    case ByBank(e) => Some(e)
    case BeginJob(_, _, c, from, to, amount) => Some(Begin(c, JobCall(JobOf(m, v), from, to, amount)))
    case Wipe(c, newId, now) => Some(Do(c, newId, now))
    case _ => None
  }

  function SimStep(m: System, v: Move): Option<Runner.Event>
    requires Fits(m, v)
  {
    match v
    case BySim(e) => Some(e)
    case BeginJob(r, w, _, _, _, _) => Some(Runner.Count(r, w))
    case RecordJob(r, w) => Some(Runner.Record(r, w, Classify(m.bank.clients[m.calls[JobOf(m, v)]].pc.result)))
    case Wipe(_, _, _) => Some(Runner.Truncate)
    case _ => None
  }

  predicate Can(m: System, v: Move) {
    && Fits(m, v)
    && (BankStep(m, v).Some? ==> Enabled(m.bank, BankStep(m, v).value))
    && (SimStep(m, v).Some? ==> Runner.Enabled(m.sim, SimStep(m, v).value))
  }

  ghost function Next(m: System, v: Move): System
    requires Can(m, v)
  {
    System(if BankStep(m, v).Some? then Apply(m.bank, BankStep(m, v).value) else m.bank,
           if SimStep(m, v).Some? then Runner.Apply(m.sim, SimStep(m, v).value) else m.sim,
           if v.BeginJob? then m.calls[JobOf(m, v) := v.client] else m.calls)
  }

  ghost predicate ValidMoves(external: bool, vs: seq<Move>) {
    vs == [] || (ValidMoves(external, vs[..|vs| - 1]) && Can(After(external, vs[..|vs| - 1]), vs[|vs| - 1]))
  }

  ghost function After(external: bool, vs: seq<Move>): System {
    if vs == [] then System(Init(external), Runner.INIT, map[])
    else
      var m := After(external, vs[..|vs| - 1]);
      if Can(m, vs[|vs| - 1]) then Next(m, vs[|vs| - 1]) else m
  }

  // -------------------------------------------------------------------------------------- the runs of the two sides

  ghost function BankRun(external: bool, vs: seq<Move>): seq<Event> {
    if vs == [] then []
    else
      var m, v := After(external, vs[..|vs| - 1]), vs[|vs| - 1];
      BankRun(external, vs[..|vs| - 1]) + if Fits(m, v) && BankStep(m, v).Some? then [BankStep(m, v).value] else []
  }

  ghost function SimRun(external: bool, vs: seq<Move>): seq<Runner.Event> {
    if vs == [] then []
    else
      var m, v := After(external, vs[..|vs| - 1]), vs[|vs| - 1];
      SimRun(external, vs[..|vs| - 1]) + if Fits(m, v) && SimStep(m, v).Some? then [SimStep(m, v).value] else []
  }

  /** Each side of the whole is a run of its own. */
  lemma {:induction false} BothSidesRun(external: bool, vs: seq<Move>)
    requires ValidMoves(external, vs)
    ensures At(external, BankRun(external, vs), After(external, vs).bank)
    ensures Simulator.Runs(SimRun(external, vs), After(external, vs).sim)
  {
    hide Enabled, Apply, Runner.Enabled, Runner.Apply, Fits, BankStep, SimStep;
    if vs != [] {
      var before := vs[..|vs| - 1];
      var m, v := After(external, before), vs[|vs| - 1];
      BothSidesRun(external, before);
      hide At, Simulator.Runs;
      if BankStep(m, v).Some? { Extend(external, BankRun(external, before), m.bank, BankStep(m, v).value); }
      else { assert BankRun(external, vs) == BankRun(external, before); }
      if SimStep(m, v).Some? { Simulator.OneMore(SimRun(external, before), m.sim, SimStep(m, v).value); }
      else { assert SimRun(external, vs) == SimRun(external, before); }
    }
  }

  lemma JobKeysDiffer(j: Job, k: Job)
    requires JobKey(j) == JobKey(k)
    ensures j == k
  {
    var a, b, x, y := Money.Digits(j.run), Money.Digits(k.run), Money.Digits(j.n), Money.Digits(k.n);
    assert JobKey(j)[4..] == a + "-" + x && JobKey(k)[4..] == b + "-" + y;
    SplitAtDash(a, x, b, y);
  }

  lemma SplitAtDash(a: string, x: string, b: string, y: string)
    requires Money.AllDigits(a) && Money.AllDigits(b) && a + "-" + x == b + "-" + y
    ensures a == b && x == y
  {
    var s := a + "-" + x;
    assert s[|a|] == '-' && s[|b|] == '-';
    assert a == s[..|a|] && b == s[..|b|] && x == s[|a| + 1..] && y == s[|b| + 1..];
  }

  // ------------------------------------------------------------------------------------------------ jobs and calls

  /** The call of a job. */
  predicate Calls(m: System, j: Job) {
    j in m.calls && j.run in m.sim.runs && m.calls[j] in m.bank.clients
    && IsJobCall(m.bank.clients[m.calls[j]].w.call, j)
  }

  /** The outcome recorded for job n is that of its call. */
  predicate Told(m: System, j: Job)
    requires j.run in m.sim.runs && j.n in m.sim.runs[j.run].outcomes
  {
    && j in m.calls && m.calls[j] in m.bank.clients && m.bank.clients[m.calls[j]].pc.Done?
    && m.sim.runs[j.run].outcomes[j.n] == Classify(m.bank.clients[m.calls[j]].pc.result)
  }

  predicate Recorded(sim: Runner.State, j: Job) { j.run in sim.runs && j.n in sim.runs[j.run].outcomes }

  /** No truncate since the call began. */
  ghost predicate NotWiped(s: State, c: nat) {
    && c in s.clients && s.clients[c].begun <= |s.history|
    && forall i :: s.clients[c].begun <= i < |s.history| ==> !s.history[i].op.Truncate?
  }

  ghost predicate CallsKnown(m: System) { forall j :: j in m.calls ==> Calls(m, j) }

  ghost predicate OutcomesTold(m: System) { forall j :: Recorded(m.sim, j) ==> Told(m, j) }

  /** The tables have not been truncated since the run on the board began to transfer. */
  ghost predicate BoardKept(m: System) {
    forall j :: j in m.calls && j.run == m.sim.board.runID ==> NotWiped(m.bank, m.calls[j])
  }

  ghost predicate JobsOk(m: System) { CallsKnown(m) && OutcomesTold(m) && BoardKept(m) }

  // ------------------------------------------------------------------------------------------- what a move leaves

  /** Clients keep their calls, and those that are over keep their results. */
  ghost predicate BankGoesOn(s: State, s': State) {
    && s.history <= s'.history
    && forall c :: c in s.clients ==>
         && c in s'.clients && s'.clients[c].w.call == s.clients[c].w.call && s'.clients[c].begun == s.clients[c].begun
         && (s.clients[c].pc.Done? ==> s'.clients[c].pc == s.clients[c].pc)
  }

  lemma EventGoesOn(s: State, e: Event)
    requires Inv(s) && Enabled(s, e)
    ensures BankGoesOn(s, Apply(s, e))
  {
    ClientsStay(s, e);
    StepCommits(s, e);
    hide Inv, Enabled, Apply, OpOf;
    forall c | c in s.clients && s.clients[c].pc.Done? ensures Apply(s, e).clients[c] == s.clients[c] {
      OverStays(s, e, c);
    }
  }

  /** Only the statement TRUNCATE truncates. */
  lemma OnlyTruncateWipes(s: State, e: Event)
    requires Enabled(s, e) && !(e.Do? && AtTruncate(s, e.client))
    ensures OpOf(s, e).Some? ==> !OpOf(s, e).value.Truncate?
  {
    hide KeyTaken, ByKey, NextLock, Publish, Continues, NewEntry, NewBalance, VersionMatches, Booked, RowIs;
  }

  lemma NotWipedGoesOn(s: State, e: Event, c: nat)
    requires Inv(s) && Enabled(s, e) && !(e.Do? && AtTruncate(s, e.client)) && NotWiped(s, c)
    ensures NotWiped(Apply(s, e), c)
  {
    hide OpOf, Guard, Exec, DbInv, Inv, Enabled, Apply, AtTruncate;
    ClientsStay(s, e);
    StepCommits(s, e);
    OnlyTruncateWipes(s, e);
  }

  /** No outcome is added or changed, and the board speaks of the same run or of a new one. */
  ghost predicate SameOutcomes(sim: Runner.State, sim': Runner.State) {
    && (forall r :: r in sim.runs ==> r in sim'.runs && sim'.runs[r].outcomes == sim.runs[r].outcomes)
    && (forall r :: r in sim'.runs && r !in sim.runs ==> sim'.runs[r].outcomes == map[])
    && (sim'.board.runID == sim.board.runID || sim'.board.runID !in sim.runs)
  }

  /** The runs and the board of the simulator after a step that neither records nor truncates. */
  lemma StepKeepsOutcomes(sim: Runner.State, e: Runner.Event)
    requires Runner.Inv(sim) && Runner.Enabled(sim, e) && !e.Record? && !e.Truncate?
    ensures SameOutcomes(sim, Runner.Apply(sim, e))
  {
    hide Runner.Inv, Runner.Apply, Runner.Enabled;
    if Runner.RunEvent(e) {
      RunKeepsOutcomes(sim, e);
    } else if e.Start? {
      StartKeepsOutcomes(sim, e);
    } else {
      Runner.SameRuns(sim, e);
      SameBoard(sim, e);
    }
  }

  lemma RunKeepsOutcomes(sim: Runner.State, e: Runner.Event)
    requires Runner.Enabled(sim, e) && Runner.RunEvent(e) && !e.Record?
    ensures SameOutcomes(sim, Runner.Apply(sim, e))
  {
    hide Runner.Apply, Runner.Enabled;
    Runner.StepsForward(sim, e);
    OutcomesOfRun(sim, e);
  }

  lemma StartKeepsOutcomes(sim: Runner.State, e: Runner.Event)
    requires Runner.Inv(sim) && Runner.Enabled(sim, e) && e.Start?
    ensures SameOutcomes(sim, Runner.Apply(sim, e))
  {
    Runner.NewRunIsNew(sim);
    assert Runner.Apply(sim, e).runs == sim.runs[sim.started + 1 := Runner.NewExecution(e.config)];
    assert Runner.Apply(sim, e).board.runID == sim.started + 1;
    hide Runner.Inv, Runner.Apply, Runner.Enabled;
  }

  lemma OutcomesOfRun(sim: Runner.State, e: Runner.Event)
    requires Runner.Enabled(sim, e) && Runner.RunEvent(e) && !e.Record?
    ensures e.run in sim.runs && e.run in Runner.Apply(sim, e).runs
    ensures Runner.Apply(sim, e).runs[e.run].outcomes == sim.runs[e.run].outcomes
  {
  }

  lemma SameBoard(sim: Runner.State, e: Runner.Event)
    requires Runner.Enabled(sim, e) && !Runner.RunEvent(e) && !e.Start? && !e.Truncate?
    ensures Runner.Apply(sim, e).board == sim.board
  {
  }

  // ------------------------------------------------------------------------------------------------ the invariant

  /** What JobsOk says about both sides, kept by an event of the bank. */
  lemma BankKeeps(m: System, e: Event, s': State)
    requires JobsOk(m) && Inv(m.bank) && Enabled(m.bank, e) && s' == Apply(m.bank, e)
    ensures CallsKnown(m.(bank := s')) && OutcomesTold(m.(bank := s'))
    ensures !(e.Do? && AtTruncate(m.bank, e.client)) ==> BoardKept(m.(bank := s'))
  {
    EventGoesOn(m.bank, e);
    hide Inv, Enabled, Apply, IsJobCall, Classify, NotWiped;
    forall j | j in m.calls ensures Calls(m.(bank := s'), j) {
      assert Calls(m, j);
    }
    forall j | Recorded(m.sim, j) ensures Told(m.(bank := s'), j) {
      assert Told(m, j);
    }
    if !(e.Do? && AtTruncate(m.bank, e.client)) {
      forall j | j in m.calls && j.run == m.sim.board.runID ensures NotWiped(s', m.calls[j]) {
        NotWipedGoesOn(m.bank, e, m.calls[j]);
      }
    }
  }

  /** The same, kept by a step of the simulator that neither records nor truncates. */
  lemma SimKeeps(m: System, e: Runner.Event, sim': Runner.State)
    requires JobsOk(m) && Runner.Inv(m.sim) && Runner.Enabled(m.sim, e) && !e.Record? && !e.Truncate?
    requires sim' == Runner.Apply(m.sim, e)
    ensures JobsOk(m.(sim := sim'))
  {
    hide Runner.Inv, Runner.Enabled, Runner.Apply, SameOutcomes, CallsKnown, OutcomesTold, BoardKept;
    StepKeepsOutcomes(m.sim, e);
    OutcomesStayTold(m, sim');
    BoardStaysKept(m, sim');
  }

  lemma OutcomesStayTold(m: System, sim': Runner.State)
    requires OutcomesTold(m) && SameOutcomes(m.sim, sim')
    ensures OutcomesTold(m.(sim := sim'))
  {
    hide Classify;
    forall j | Recorded(sim', j) ensures Told(m.(sim := sim'), j) {
      assert Recorded(m.sim, j) && Told(m, j);
    }
  }

  lemma BoardStaysKept(m: System, sim': Runner.State)
    requires CallsKnown(m) && BoardKept(m) && SameOutcomes(m.sim, sim')
    ensures CallsKnown(m.(sim := sim')) && BoardKept(m.(sim := sim'))
  {
    hide IsJobCall, NotWiped;
    forall j | j in m.calls
      ensures Calls(m.(sim := sim'), j) && (j.run == sim'.board.runID ==> j.run == m.sim.board.runID)
    {
      assert Calls(m, j);
    }
  }

  /** A new call for a job that has no outcome yet. */
  lemma CallKeeps(m: System, j: Job, c: nat)
    requires JobsOk(m) && !Recorded(m.sim, j) && j.run in m.sim.runs && NotWiped(m.bank, c)
    requires IsJobCall(m.bank.clients[c].w.call, j)
    ensures JobsOk(m.(calls := m.calls[j := c]))
  {
    hide IsJobCall, Classify, NotWiped;
    var m' := m.(calls := m.calls[j := c]);
    forall k | k in m'.calls ensures Calls(m', k) && (k.run == m.sim.board.runID ==> NotWiped(m.bank, m'.calls[k])) {
      if k != j { assert Calls(m, k); } else { assert c in m.bank.clients by { WipedKnown(m.bank, c); } }
    }
    forall k | Recorded(m.sim, k) ensures Told(m', k) {
      assert Told(m, k);
    }
  }

  lemma WipedKnown(s: State, c: nat)
    requires NotWiped(s, c)
    ensures c in s.clients
  {
  }

  /** A job that a worker has in its hands has no outcome. */
  lemma InHandUnrecorded(sim: Runner.State, r: nat, w: nat)
    requires Runner.Inv(sim) && Runner.WorkerIs(sim, r, w)
    requires sim.runs[r].workers[w].Taken? || sim.runs[r].workers[w].Transferring?
    ensures !Recorded(sim, Job(r, sim.runs[r].workers[w].job))
  {
    assert Runner.ExecutionOk(sim.runs[r]) && Runner.Holds(sim.runs[r].workers[w], sim.runs[r].workers[w].job);
    hide Runner.Inv, Runner.Tallied, Runner.InFlight, Runner.InHand;
  }

  lemma BeginsJob(m: System, v: Move)
    requires JobsOk(m) && Inv(m.bank) && Runner.Inv(m.sim) && Can(m, v) && v.BeginJob?
    ensures JobsOk(Next(m, v))
  {
    hide Inv, Runner.Inv, IsJobCall, NotWiped, BoardKept, OutcomesTold, CallsKnown, Runner.Apply, StartOf;
    var j, call := JobOf(m, v), JobCall(JobOf(m, v), v.from, v.to, v.amount);
    var s' := Apply(m.bank, Begin(v.client, call));
    InHandUnrecorded(m.sim, v.run, v.worker);
    BankKeeps(m, Begin(v.client, call), s');
    assert s' == Put(m.bank, v.client, StartOf(call, |m.bank.history|));
    JobBegins(m.bank, v.client, j, call);
    CallKeeps(m.(bank := s'), j, v.client);
    SimKeeps(m.(bank := s', calls := m.calls[j := v.client]), Runner.Count(v.run, v.worker), Next(m, v).sim);
  }

  lemma JobBegins(s: State, c: nat, j: Job, call: Call)
    requires call.CallTransfer? && call == JobCall(j, call.from, call.to, call.amount)
    requires call.from != call.to && MIN_TRANSFER_CENTS <= call.amount <= MAX_TRANSFER_CENTS
    ensures var s' := Put(s, c, StartOf(call, |s.history|)); IsJobCall(s'.clients[c].w.call, j) && NotWiped(s', c)
  {
    hide Money.Digits;
  }

  lemma RecordsJob(m: System, v: Move)
    requires JobsOk(m) && Can(m, v) && v.RecordJob?
    ensures JobsOk(Next(m, v))
  {
    var j := JobOf(m, v);
    var outcome := Classify(m.bank.clients[m.calls[j]].pc.result);
    var x := Runner.Recording(m.sim.runs[v.run], v.worker, outcome);
    assert Next(m, v) == m.(sim := Runner.Update(m.sim, v.run, x));
    assert x.outcomes == m.sim.runs[v.run].outcomes[j.n := outcome];
    hide JobsOk, Classify, Can, Next, SimStep, BankStep, Runner.Recording;
    OutcomeAdded(m, v.run, x, j, outcome);
  }

  /** The outcome of one more job, told by its call. */
  lemma OutcomeAdded(m: System, r: nat, x: Runner.Execution, j: Job, outcome: Runner.Outcome)
    requires JobsOk(m) && r in m.sim.runs && j.run == r && x.outcomes == m.sim.runs[r].outcomes[j.n := outcome]
    requires j in m.calls && m.calls[j] in m.bank.clients && m.bank.clients[m.calls[j]].pc.Done?
    requires outcome == Classify(m.bank.clients[m.calls[j]].pc.result)
    ensures JobsOk(m.(sim := Runner.Update(m.sim, r, x)))
  {
    hide IsJobCall, Classify, NotWiped;
    var m' := m.(sim := Runner.Update(m.sim, r, x));
    forall k | k in m.calls ensures Calls(m', k) {
      assert Calls(m, k);
    }
    forall k | Recorded(m'.sim, k) ensures Told(m', k) {
      if k != j { assert Recorded(m.sim, k) && Told(m, k); }
    }
  }

  /** When the tables are truncated no run is on the board. */
  lemma WipesTables(m: System, v: Move)
    requires JobsOk(m) && Inv(m.bank) && Runner.Inv(m.sim) && Can(m, v) && v.Wipe?
    ensures JobsOk(Next(m, v))
  {
    hide Inv, Runner.Inv, Apply, Enabled, CallsKnown, OutcomesTold, BoardKept;
    var e := Do(v.client, v.newId, v.now);
    var s', sim' := Apply(m.bank, e), Runner.Apply(m.sim, Runner.Truncate);
    assert Next(m, v) == System(s', sim', m.calls) && sim'.runs == m.sim.runs && sim'.board.runID == 0;
    hide Can, Next, BankStep, SimStep, Runner.Apply, Runner.Enabled;
    NoRunZero(m.sim);
    BankKeeps(m, e, s');
    WipedBoard(m.(bank := s'), sim');
  }

  lemma NoRunZero(sim: Runner.State)
    requires Runner.Inv(sim)
    ensures 0 !in sim.runs
  {
    hide Runner.BoardOk, Runner.StepsOk, Runner.ExecutionOk;
  }

  lemma WipedBoard(m: System, sim': Runner.State)
    requires CallsKnown(m) && OutcomesTold(m) && 0 !in m.sim.runs && sim'.runs == m.sim.runs && sim'.board.runID == 0
    ensures JobsOk(m.(sim := sim'))
  {
    hide IsJobCall, NotWiped, Classify;
    var m' := m.(sim := sim');
    forall k | k in m.calls ensures Calls(m', k) && k.run != 0 {
      assert Calls(m, k);
    }
    forall k | Recorded(sim', k) ensures Told(m', k) {
      assert Recorded(m.sim, k) && Told(m, k);
    }
  }

  lemma MoveKeepsJobs(m: System, v: Move)
    requires JobsOk(m) && Inv(m.bank) && Runner.Inv(m.sim) && Can(m, v)
    ensures JobsOk(Next(m, v))
  {
    match v {
      case ByBank(e) => BankKeeps(m, e, Next(m, v).bank);
      case BySim(e) => SimKeeps(m, e, Next(m, v).sim);
      case BeginJob(_, _, _, _, _, _) => BeginsJob(m, v);
      case RecordJob(_, _) => RecordsJob(m, v);
      case Wipe(_, _, _) => WipesTables(m, v);
    }
    hide Inv, Runner.Inv, CallsKnown, OutcomesTold, BoardKept, Apply, Enabled, Runner.Apply, Runner.Enabled;
  }

  lemma {:induction false} JobsOkAlways(external: bool, vs: seq<Move>)
    requires ValidMoves(external, vs)
    ensures JobsOk(After(external, vs)) && Inv(After(external, vs).bank) && Runner.Inv(After(external, vs).sim)
  {
    BothSidesRun(external, vs);
    EveryInterleavingRefinesTheAtomicBank(external, BankRun(external, vs));
    Runner.InvAlways(SimRun(external, vs));
    hide Can, Next, Inv, Runner.Inv, JobsOk, BankRun, SimRun;
    if vs == [] {
      NothingBegun(external);
    } else {
      JobsOkAlways(external, vs[..|vs| - 1]);
      MoveKeepsJobs(After(external, vs[..|vs| - 1]), vs[|vs| - 1]);
    }
  }

  lemma NothingBegun(external: bool)
    ensures JobsOk(System(Init(external), Runner.INIT, map[]))
  {
  }

  // --------------------------------------------------------------------------------------------- one call for a job

  /** Some worker is transferring for the job. */
  predicate Busy(sim: Runner.State, j: Job) {
    && j.run in sim.runs
    && exists w :: 0 <= w < |sim.runs[j.run].workers| && sim.runs[j.run].workers[w] == Runner.Transferring(j.n)
  }

  ghost predicate OneCall(m: System) { forall j :: j in m.calls <==> Recorded(m.sim, j) || Busy(m.sim, j) }

  lemma BusyElsewhere(sim: Runner.State, r: nat, x: Runner.Execution, j: Job)
    requires r in sim.runs && j.run != r
    ensures Busy(Runner.Update(sim, r, x), j) <==> Busy(sim, j)
  {
  }

  /** Worker w of run r turns to something else. */
  lemma BusyWorker(sim: Runner.State, r: nat, w: nat, worker: Runner.Worker, x: Runner.Execution, n: nat)
    requires Runner.WorkerIs(sim, r, w) && x.workers == sim.runs[r].workers[w := worker]
    requires sim.runs[r].workers[w] != Runner.Transferring(n)
    ensures Busy(Runner.Update(sim, r, x), Job(r, n)) <==> Busy(sim, Job(r, n)) || worker == Runner.Transferring(n)
  {
    var sim', j, ws := Runner.Update(sim, r, x), Job(r, n), sim.runs[r].workers;
    if Busy(sim, j) {
      var v :| 0 <= v < |ws| && ws[v] == Runner.Transferring(n);
      assert sim'.runs[r].workers[v] == Runner.Transferring(n);
    }
    if worker == Runner.Transferring(n) { assert sim'.runs[r].workers[w] == Runner.Transferring(n); }
  }

  lemma SameWorkersBusy(sim: Runner.State, r: nat, x: Runner.Execution, j: Job)
    requires r in sim.runs && (x.workers == sim.runs[r].workers || (Idle(x.workers) && Idle(sim.runs[r].workers)))
    ensures Busy(Runner.Update(sim, r, x), j) <==> Busy(sim, j)
  {
  }

  predicate Idle(ws: seq<Runner.Worker>) { forall w :: 0 <= w < |ws| ==> !ws[w].Transferring? }

  /** Outside Count and Record the same jobs are being transferred. */
  lemma SimKeepsBusy(sim: Runner.State, e: Runner.Event, j: Job)
    requires Runner.Inv(sim) && Runner.Enabled(sim, e) && !e.Count? && !e.Record?
    ensures Busy(Runner.Apply(sim, e), j) <==> Busy(sim, j)
  {
    hide Busy, Runner.Inv, Runner.Enabled, Runner.Apply;
    if Runner.RunEvent(e) {
      RunKeepsBusy(sim, e, j);
    } else if e.Start? {
      StartKeepsBusy(sim, e, j);
    } else {
      Runner.SameRuns(sim, e);
      OnlyRuns(Runner.Apply(sim, e), sim, j);
    }
  }

  lemma StartKeepsBusy(sim: Runner.State, e: Runner.Event, j: Job)
    requires Runner.Inv(sim) && Runner.Enabled(sim, e) && e.Start?
    ensures Busy(Runner.Apply(sim, e), j) <==> Busy(sim, j)
  {
    Runner.NewRunIsNew(sim);
    Runner.StartAddsRun(sim, e);
    hide Runner.Inv, Runner.Apply, Runner.Enabled;
  }

  /** What a step of a run does to its workers. */
  lemma RunWorkers(sim: Runner.State, e: Runner.Event)
    requires Runner.Inv(sim) && Runner.Enabled(sim, e) && Runner.RunEvent(e) && !e.Count? && !e.Record?
    ensures var x := Runner.Apply(sim, e).runs[e.run];
            && e.run in sim.runs && Runner.Apply(sim, e).runs == sim.runs[e.run := x]
            && (if e.Send? || e.WorkerQuits? then Turns(sim, e, x)
                else x.workers == sim.runs[e.run].workers || (Idle(x.workers) && Idle(sim.runs[e.run].workers)))
  {
    StepOkOf(sim, e);
    Runner.StepsForward(sim, e);
    hide Runner.Inv, Idle, Runner.StepOk, Runner.Apply, Runner.Enabled, Turns;
    if e.Send? || e.WorkerQuits? { WorkerTurns(sim, e); } else { SeedIdle(sim, e); }
  }

  /** A waiting worker turns to something else, but not to a transfer. */
  predicate Turns(sim: Runner.State, e: Runner.Event, x: Runner.Execution)
    requires e.Send? || e.WorkerQuits?
  {
    && Runner.WorkerIs(sim, e.run, e.worker) && sim.runs[e.run].workers[e.worker].Waiting?
    && e.worker < |x.workers| && !x.workers[e.worker].Transferring?
    && x.workers == sim.runs[e.run].workers[e.worker := x.workers[e.worker]]
  }

  lemma WorkerTurns(sim: Runner.State, e: Runner.Event)
    requires Runner.Enabled(sim, e) && (e.Send? || e.WorkerQuits?)
    ensures e.run in Runner.Apply(sim, e).runs && Turns(sim, e, Runner.Apply(sim, e).runs[e.run])
  {
  }

  lemma StepOkOf(sim: Runner.State, e: Runner.Event)
    requires Runner.Inv(sim) && Runner.Enabled(sim, e) && Runner.RunEvent(e)
    ensures e.run in sim.runs && Runner.StepOk(sim.runs[e.run])
  {
    hide Runner.OneLive, Runner.BoardOk, Runner.ExecutionOk, Runner.StepOk;
  }

  lemma RunKeepsBusy(sim: Runner.State, e: Runner.Event, j: Job)
    requires Runner.Inv(sim) && Runner.Enabled(sim, e) && Runner.RunEvent(e) && !e.Count? && !e.Record?
    ensures Busy(Runner.Apply(sim, e), j) <==> Busy(sim, j)
  {
    hide Runner.Inv, Busy, Runner.Apply, Runner.Enabled, Idle;
    RunWorkers(sim, e);
    var x := Runner.Apply(sim, e).runs[e.run];
    OnlyRuns(Runner.Apply(sim, e), Runner.Update(sim, e.run, x), j);
    if j.run != e.run { BusyElsewhere(sim, e.run, x, j); }
    else if e.Send? || e.WorkerQuits? { BusyWorker(sim, e.run, e.worker, x.workers[e.worker], x, j.n); }
    else { SameWorkersBusy(sim, e.run, x, j); }
  }

  lemma OnlyRuns(sim: Runner.State, sim': Runner.State, j: Job)
    requires sim.runs == sim'.runs
    ensures Busy(sim, j) <==> Busy(sim', j)
  {
  }

  lemma SeedIdle(sim: Runner.State, e: Runner.Event)
    requires Runner.Enabled(sim, e) && Runner.RunEvent(e) && Runner.StepOk(sim.runs[e.run])
    requires !e.Count? && !e.Record? && !e.Send? && !e.WorkerQuits?
    ensures var x := Runner.Apply(sim, e).runs[e.run];
            x.workers == sim.runs[e.run].workers || (Idle(x.workers) && Idle(sim.runs[e.run].workers))
  {
  }

  lemma CountMakesBusy(sim: Runner.State, r: nat, w: nat, j: Job)
    requires Runner.Enabled(sim, Runner.Count(r, w))
    ensures var sim' := Runner.Apply(sim, Runner.Count(r, w));
            && (Recorded(sim', j) <==> Recorded(sim, j))
            && (Busy(sim', j) <==> Busy(sim, j) || j == Job(r, sim.runs[r].workers[w].job))
  {
    var x := Runner.Counting(sim.runs[r], w);
    hide Busy;
    if j.run == r { BusyWorker(sim, r, w, x.workers[w], x, j.n); } else { BusyElsewhere(sim, r, x, j); }
  }

  lemma RecordEndsBusy(sim: Runner.State, r: nat, w: nat, outcome: Runner.Outcome, j: Job)
    requires Runner.Inv(sim) && Runner.Enabled(sim, Runner.Record(r, w, outcome))
    ensures var sim' := Runner.Apply(sim, Runner.Record(r, w, outcome));
            Recorded(sim', j) || Busy(sim', j) <==> Recorded(sim, j) || Busy(sim, j)
  {
    var x, job := Runner.Recording(sim.runs[r], w, outcome), Job(r, sim.runs[r].workers[w].job);
    assert Runner.Apply(sim, Runner.Record(r, w, outcome)) == Runner.Update(sim, r, x);
    if j == job {
      assert Busy(sim, j);
    } else if j.run == r {
      hide Busy;
      BusyWorker(sim, r, w, Runner.Waiting, x, j.n);
    } else {
      hide Busy;
      BusyElsewhere(sim, r, x, j);
    }
  }

  lemma SimKeepsOneCall(m: System, e: Runner.Event, sim': Runner.State)
    requires OneCall(m) && Runner.Inv(m.sim) && Runner.Enabled(m.sim, e) && !e.Count? && !e.Truncate?
    requires sim' == Runner.Apply(m.sim, e)
    ensures OneCall(m.(sim := sim'))
  {
    hide Runner.Inv, Runner.Enabled, Runner.Apply, Busy, Recorded;
    forall j ensures Recorded(sim', j) || Busy(sim', j) <==> Recorded(m.sim, j) || Busy(m.sim, j) {
      if e.Record? { RecordEndsBusy(m.sim, e.run, e.worker, e.outcome, j); }
      else { SimKeepsBusy(m.sim, e, j); StepKeepsRecorded(m.sim, e, j); }
    }
  }

  lemma StepKeepsRecorded(sim: Runner.State, e: Runner.Event, j: Job)
    requires Runner.Inv(sim) && Runner.Enabled(sim, e) && !e.Record? && !e.Truncate?
    ensures Recorded(Runner.Apply(sim, e), j) <==> Recorded(sim, j)
  {
    hide Runner.Inv, Runner.Enabled, Runner.Apply;
    StepKeepsOutcomes(sim, e);
  }

  lemma CallIsOne(m: System, v: Move)
    requires OneCall(m) && Can(m, v) && v.BeginJob?
    ensures OneCall(Next(m, v))
  {
    var m', j0 := Next(m, v), JobOf(m, v);
    assert m'.calls == m.calls[j0 := v.client] && m'.sim == Runner.Apply(m.sim, Runner.Count(v.run, v.worker));
    hide Next, BankStep, Runner.Apply, Busy, Recorded;
    forall j ensures j in m'.calls <==> Recorded(m'.sim, j) || Busy(m'.sim, j) {
      CountMakesBusy(m.sim, v.run, v.worker, j);
    }
  }

  lemma MoveKeepsOneCall(m: System, v: Move)
    requires OneCall(m) && Runner.Inv(m.sim) && Can(m, v)
    ensures OneCall(Next(m, v))
  {
    var sim' := Next(m, v).sim;
    if v.BeginJob? {
      CallIsOne(m, v);
    } else if v.Wipe? {
      Runner.SameRuns(m.sim, Runner.Truncate);
      hide Runner.Inv, Runner.Apply;
      forall j ensures Busy(sim', j) <==> Busy(m.sim, j) { OnlyRuns(sim', m.sim, j); }
    } else if SimStep(m, v).Some? {
      hide Runner.Inv, Runner.Apply, OneCall;
      SimKeepsOneCall(m, SimStep(m, v).value, sim');
    }
  }

  /** In every reachable state every job that was counted has made exactly one call, and every other none. */
  lemma {:induction false} JobsMakeOneCall(external: bool, vs: seq<Move>)
    requires ValidMoves(external, vs)
    ensures OneCall(After(external, vs))
    ensures ByOneJob(After(external, vs).calls)
  {
    JobsOkAlways(external, vs);
    CallsDiffer(After(external, vs));
    hide Can, Next, Inv, Runner.Inv, JobsOk, OneCall, ByOneJob;
    if vs == [] {
      NobodyCalls(external);
    } else {
      JobsOkAlways(external, vs[..|vs| - 1]);
      JobsMakeOneCall(external, vs[..|vs| - 1]);
      MoveKeepsOneCall(After(external, vs[..|vs| - 1]), vs[|vs| - 1]);
    }
  }

  lemma NobodyCalls(external: bool)
    ensures OneCall(System(Init(external), Runner.INIT, map[]))
  {
  }

  /** No two jobs share a call. */
  predicate ByOneJob(calls: map<Job, nat>) {
    forall j, k :: j in calls && k in calls && calls[j] == calls[k] ==> j == k
  }

  lemma CallsDiffer(m: System)
    requires JobsOk(m)
    ensures ByOneJob(m.calls)
  {
    hide OutcomesTold, BoardKept;
    forall j, k | j in m.calls && k in m.calls && m.calls[j] == m.calls[k] ensures j == k {
      assert Calls(m, j) && Calls(m, k);
      JobKeysDiffer(j, k);
    }
  }

  /** In every reachable state, for every job with an outcome: it made a call as its job asks for, and the outcome says
      how that ended: accepted if it returned nil, rejected if its transfer is FAILED, exhausted if it is still told
      CONFLICT, an error if anything else. */
  lemma OutcomesTellAnswers(external: bool, vs: seq<Move>, j: Job)
    requires ValidMoves(external, vs) && Recorded(After(external, vs).sim, j)
    ensures var m := After(external, vs);
            && j in m.calls && m.calls[j] in m.bank.clients
            && var cl := m.bank.clients[m.calls[j]];
               && IsJobCall(cl.w.call, j) && cl.pc.Done?
               && match m.sim.runs[j.run].outcomes[j.n]
                  case Accepted => cl.pc.result.Accepted?
                  case RejectedInsufficient => cl.pc.result == Invalid(true)
                  case ConflictExhausted => cl.pc.result == Conflicted
                  case Errors =>
                    !cl.pc.result.Accepted? && cl.pc.result != Invalid(true) && cl.pc.result != Conflicted
  {
    JobsOkAlways(external, vs);
    hide After, ValidMoves, JobsOk, Inv, Runner.Inv, IsJobCall, Classify;
    JobTold(After(external, vs), j);
    ClassifiedAnswers(After(external, vs).bank.clients[After(external, vs).calls[j]].pc.result);
  }

  lemma JobTold(m: System, j: Job)
    requires JobsOk(m) && Recorded(m.sim, j)
    ensures j in m.calls && m.calls[j] in m.bank.clients && IsJobCall(m.bank.clients[m.calls[j]].w.call, j)
    ensures m.bank.clients[m.calls[j]].pc.Done?
    ensures m.sim.runs[j.run].outcomes[j.n] == Classify(m.bank.clients[m.calls[j]].pc.result)
  {
    hide BoardKept, IsJobCall, Classify;
    assert Told(m, j) && Calls(m, j);
  }

  lemma ClassifiedAnswers(result: Result)
    ensures match Classify(result)
            case Accepted => result.Accepted?
            case RejectedInsufficient => result == Invalid(true)
            case ConflictExhausted => result == Conflicted
            case Errors => !result.Accepted? && result != Invalid(true) && result != Conflicted
  {
  }

  /** A job whose conflicts were exhausted, with its key to itself, was tried five times and lost three attempts each
      time, to fifteen commits of others on its two accounts since it began. */
  lemma ExhaustedJobsLostFifteen(external: bool, vs: seq<Move>, j: Job)
    requires ValidMoves(external, vs) && Recorded(After(external, vs).sim, j)
    requires After(external, vs).sim.runs[j.run].outcomes[j.n] == Runner.ConflictExhausted
    requires j in After(external, vs).calls && Keys.AloneWithKey(After(external, vs).bank, After(external, vs).calls[j])
    ensures var m := After(external, vs);
            && m.calls[j] in m.bank.clients
            && var cl := m.bank.clients[m.calls[j]];
               && cl.w.call.CallTransfer? && cl.begun <= |m.bank.history|
               && 15 <= BankCalls.HitsSince(m.bank.history, cl, |m.bank.history|)
  {
    OutcomesTellAnswers(external, vs, j);
    BothSidesRun(external, vs);
    var m, es := After(external, vs), BankRun(external, vs);
    assert ValidRun(external, es) && StateAfter(external, es) == m.bank;
    hide After, ValidMoves, BankRun, At, Simulator.Runs, StateAfter, ValidRun, Keys.AloneWithKey, BankCalls.HitsSince;
    Keys.OwnConflictsAreForeign(external, es, m.calls[j]);
  }

  /** A worker that has taken a job can transfer any amount from 1.00 to 400.00 between any two accounts, and nothing
      else. */
  lemma JobsBeginExactly(m: System, r: nat, w: nat, c: nat, from: Id, to: Id, amount: int)
    ensures Can(m, BeginJob(r, w, c, from, to, amount)) <==>
              && r in m.sim.runs && w < |m.sim.runs[r].workers| && m.sim.runs[r].workers[w].Taken?
              && c !in m.bank.clients && from != to && 100 <= amount <= 40000
  {
    hide JobKey;
  }

  // ------------------------------------------------------------------------------------------- the books of a run

  /** The calls of the jobs that run r has outcomes for. */
  function CallsOf(m: System, r: nat): map<nat, nat>
    requires r in m.sim.runs
  {
    map n | n in m.sim.runs[r].outcomes && Job(r, n) in m.calls :: m.calls[Job(r, n)]
  }

  /** No client but the workers used a key of run r. */
  ghost predicate KeysUntouched(m: System, r: nat) {
    forall c, n: nat {:trigger m.bank.clients[c], JobKey(Job(r, n))} ::
      c in m.bank.clients && c !in m.calls.Values && m.bank.clients[c].w.call.CallTransfer? ==>
        m.bank.clients[c].w.call.key != JobKey(Job(r, n))
  }

  /** Somebody voided the transfer of call c after it began. */
  predicate Voided(s: State, c: nat)
    requires c in s.clients && s.clients[c].w.call.CallTransfer?
  {
    exists i :: s.clients[c].begun <= i < |s.history| && s.history[i].op.Void?
                && RowOfKey(s.db, s.history[i].op.tid, s.clients[c].w.call.key)
  }

  /** What the outside has to leave alone for the books of run r: its keys, its FAILED marks, and the transfers whose
      conflicts were exhausted. */
  ghost predicate Undisturbed(m: System, es: seq<Event>, r: nat)
    requires r in m.sim.runs
  {
    && KeysUntouched(m, r)
    && forall n :: n in m.sim.runs[r].outcomes && Calls(m, Job(r, n)) ==>
         var c := m.calls[Job(r, n)];
         MarkKept(m.bank.external, es, c) && (m.bank.clients[c].pc == Done(Conflicted) ==> !Voided(m.bank, c))
  }

  lemma JobIsAlone(m: System, r: nat, n: nat)
    requires JobsOk(m) && KeysUntouched(m, r) && Job(r, n) in m.calls
    ensures OwnKey(m.bank, m.calls[Job(r, n)])
  {
    var c := m.calls[Job(r, n)];
    assert Calls(m, Job(r, n));
    hide OutcomesTold, BoardKept, JobKey, KeysUntouched;
    forall d | d in m.bank.clients && d != c && m.bank.clients[d].w.call.CallTransfer?
      ensures m.bank.clients[d].w.call.key != m.bank.clients[c].w.call.key
    {
      if d in m.calls.Values {
        var k :| k in m.calls && m.calls[k] == d;
        assert Calls(m, k);
        if JobKey(k) == JobKey(Job(r, n)) { JobKeysDiffer(k, Job(r, n)); }
      } else {
        Foreign(m, r, d, n);
      }
    }
  }

  lemma Foreign(m: System, r: nat, c: nat, n: nat)
    requires KeysUntouched(m, r) && c in m.bank.clients && c !in m.calls.Values
             && m.bank.clients[c].w.call.CallTransfer?
    ensures m.bank.clients[c].w.call.key != JobKey(Job(r, n))
  {
    hide JobKey;
  }

  /** Job n of run r has made a call that the books can count, and its outcome is the answer. */
  ghost predicate Countable(m: System, es: seq<Event>, r: nat, n: nat)
    requires r in m.sim.runs && n in m.sim.runs[r].outcomes
  {
    && Job(r, n) in m.calls && GoodCall(m.bank, es, m.calls[Job(r, n)])
    && m.sim.runs[r].outcomes[n] == Classify(m.bank.clients[m.calls[Job(r, n)]].pc.result)
  }

  lemma JobIsGood(m: System, es: seq<Event>, r: nat, n: nat)
    requires JobsOk(m) && r in m.sim.runs && r == m.sim.board.runID && Undisturbed(m, es, r)
    requires n in m.sim.runs[r].outcomes
    ensures Countable(m, es, r, n)
  {
    assert Recorded(m.sim, Job(r, n)) && Told(m, Job(r, n)) && Calls(m, Job(r, n));
    JobIsAlone(m, r, n);
    var c := m.calls[Job(r, n)];
    assert NotWiped(m.bank, c);
    hide JobsOk, CallsKnown, OutcomesTold, BoardKept, Calls, Classify, OwnKey, MarkKept, KeysUntouched;
    forall i | m.bank.clients[c].begun <= i < |m.bank.history|
      ensures Spared(m.bank.history[i].op, m.bank.db, m.bank.clients[c])
    {
    }
  }

  /** The hypotheses of the books are met. */
  lemma JobsAreMade(m: System, es: seq<Event>)
    requires JobsOk(m) && Runner.Inv(m.sim) && m.sim.board.runID in m.sim.runs && Undisturbed(m, es, m.sim.board.runID)
    requires m.sim.runs[m.sim.board.runID].counters.errors == 0
    ensures var r := m.sim.board.runID; JobsMade(m.bank, es, CallsOf(m, r), m.sim.runs[r].outcomes)
  {
    hide JobsOk, Undisturbed, Runner.Inv, CallsOf, ByOneJob, Countable, JobsMade;
    var r := m.sim.board.runID;
    CallsDiffer(m);
    NoneInError(m.sim, r);
    RunCallsDiffer(m, r);
    forall n | n in m.sim.runs[r].outcomes ensures Countable(m, es, r, n) {
      JobIsGood(m, es, r, n);
    }
    CountableAreMade(m, es, r);
  }

  lemma CountableAreMade(m: System, es: seq<Event>, r: nat)
    requires r in m.sim.runs && forall n :: n in m.sim.runs[r].outcomes ==> Countable(m, es, r, n)
    requires forall n :: n in m.sim.runs[r].outcomes ==> m.sim.runs[r].outcomes[n] != Runner.Errors
    requires CallsOf(m, r).Keys <= m.sim.runs[r].outcomes.Keys && ByDifferentCalls(CallsOf(m, r))
    ensures JobsMade(m.bank, es, CallsOf(m, r), m.sim.runs[r].outcomes)
  {
    hide GoodCall, Classify, CallsOf;
    var outcomes, calls := m.sim.runs[r].outcomes, CallsOf(m, r);
    forall n | n in outcomes ensures n in calls && calls[n] == m.calls[Job(r, n)] {
      assert Countable(m, es, r, n);
      AmongCalls(m, r, n);
    }
    assert forall n :: n in calls ==> n in outcomes && Countable(m, es, r, n);
  }

  predicate ByDifferentCalls(calls: map<nat, nat>) {
    forall k, n :: k in calls && n in calls && calls[k] == calls[n] ==> k == n
  }

  lemma AmongCalls(m: System, r: nat, n: nat)
    requires r in m.sim.runs && n in m.sim.runs[r].outcomes && Job(r, n) in m.calls
    ensures n in CallsOf(m, r) && CallsOf(m, r)[n] == m.calls[Job(r, n)]
  {
  }

  lemma RunCallsDiffer(m: System, r: nat)
    requires r in m.sim.runs && ByOneJob(m.calls)
    ensures CallsOf(m, r).Keys <= m.sim.runs[r].outcomes.Keys
    ensures ByDifferentCalls(CallsOf(m, r))
  {
  }

  lemma NoneInError(sim: Runner.State, r: nat)
    requires Runner.Inv(sim) && r in sim.runs && sim.runs[r].counters.errors == 0
    ensures forall n :: n in sim.runs[r].outcomes ==> sim.runs[r].outcomes[n] != Runner.Errors
  {
    var outcomes := sim.runs[r].outcomes;
    assert Runner.ExecutionOk(sim.runs[r]);
    hide Runner.Inv, Runner.HandsOk, Runner.InFlight;
    forall n | n in outcomes ensures outcomes[n] != Runner.Errors {
      assert n in Runner.With(outcomes, outcomes[n]);
    }
  }

  /** When the simulator says finished, and its errors are 0, its run has created one row for every transfer asked
      for, and its counters divide them up as the tables do: accepted are those with entries, rejected those FAILED
      without, exhausted those PENDING without. Resets before the run and any other traffic beside it make no
      difference, as long as nobody else uses its keys, no FAILED mark is lost, and nobody voids a transfer whose
      conflicts were exhausted. */
  lemma FinishedSimulationAddsUp(external: bool, vs: seq<Move>)
    requires ValidMoves(external, vs) && After(external, vs).sim.board.phase == Runner.Finished
    requires var m := After(external, vs);
             m.sim.board.runID in m.sim.runs && Undisturbed(m, BankRun(external, vs), m.sim.board.runID)
             && m.sim.runs[m.sim.board.runID].counters.errors == 0
    ensures var m := After(external, vs);
            var db, rows := m.bank.db, CreatedBy(m.bank, CallsOf(m, m.sim.board.runID));
            var counters := m.sim.runs[m.sim.board.runID].counters;
            && |rows| == m.sim.board.config.transfers == counters.dispatched
            && |set t | t in rows && Booked(db, t)| == counters.accepted
            && |set t | t in rows && !Booked(db, t)
               && db.transfers[t].status == Failed| == counters.rejectedInsufficient
            && |set t | t in rows && !Booked(db, t) && db.transfers[t].status == Pending| == counters.conflictExhausted
  {
    var m, es, rs := After(external, vs), BankRun(external, vs), SimRun(external, vs);
    BothSidesRun(external, vs);
    JobsOkAlways(external, vs);
    hide After, ValidMoves, BankRun, SimRun, Inv, JobsOk, Undisturbed, Runner.Inv, CallsOf, CreatedBy, Booked, JobsMade;
    JobsAreMade(m, es);
    FinishedRunAddsUp(external, es, CallsOf(m, m.sim.board.runID), rs);
  }
}
