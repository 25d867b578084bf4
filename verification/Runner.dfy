/** The load simulator's runner (internal/simulation/simulation.go): a phase machine behind a mutex, one goroutine for
    every run started, its dispatcher and its workers. Any of them may take the next step at any moment. */
module Runner {
  import opened Common
  import opened Pacing

  datatype Phase = Idle | Seeding | Running | Finished | Stopped

  datatype Config = Config(accounts: nat, transfers: nat, rate: nat, workers: nat)

  const DEFAULT_CONFIG := Config(40, 1500, 60, 16)

  datatype Outcome = Accepted | RejectedInsufficient | ConflictExhausted | Errors

  datatype Counters = Counters(dispatched: nat, accepted: nat, rejectedInsufficient: nat, conflictExhausted: nat,
                               errors: nat)

  const ZERO := Counters(0, 0, 0, 0, 0)

  function Dispatched(k: Counters): Counters { k.(dispatched := k.dispatched + 1) }

  function Recorded(k: Counters, outcome: Outcome): Counters {
    match outcome
    case Accepted => k.(accepted := k.accepted + 1)
    case RejectedInsufficient => k.(rejectedInsufficient := k.rejectedInsufficient + 1)
    case ConflictExhausted => k.(conflictExhausted := k.conflictExhausted + 1)
    case Errors => k.(errors := k.errors + 1)
  }

  function Classified(k: Counters): nat { k.accepted + k.rejectedInsufficient + k.conflictExhausted + k.errors }

  // ---------------------------------------------------------------------------------- what the mutex protects

  /** Runs are numbered in the order they start; 0 stands for no run. counters names the object that the runner
      publishes: the run's own, or a blank one. */
  datatype Board = Board(phase: Phase, runID: nat, config: Config, counters: nat)

  predicate Active(phase: Phase) { phase == Seeding || phase == Running }

  function StartBoard(id: nat, config: Config): Board { Board(Seeding, id, config, id) }

  const RESET_BOARD := Board(Idle, 0, DEFAULT_CONFIG, 0)

  // ----------------------------------------------------------------------------------------------- executions

  /** A worker waits on the channel, has taken job n, is transferring it, or has seen the channel closed. */
  datatype Worker = Waiting | Taken(job: nat) | Transferring(job: nat) | Quit

  datatype Step = Seed | Dispatching | Draining | Announcing(phase: Phase) | ClosingDone | Over

  /** One run: its goroutine's step, the next job to send, its workers, its counters, and what became of every job. */
  datatype Execution = Execution(config: Config, step: Step, next: nat, workers: seq<Worker>, counters: Counters,
                                 outcomes: map<nat, Outcome>)

  function NewExecution(config: Config): Execution { Execution(config, Seed, 1, [], ZERO, map[]) }

  /** The terminal phase of the run is still to be written. */
  predicate Live(e: Execution) { e.step != ClosingDone && e.step != Over }

  /** resetting is the attempt of the Reset that holds the mutex, if one does. truncations counts the TRUNCATEs. */
  datatype State = State(board: Board, runs: map<nat, Execution>, started: nat, cancelled: set<nat>, closed: set<nat>,
                         resetting: Option<nat>, truncations: nat)

  const INIT := State(RESET_BOARD, map[], 0, {}, {}, None, 0)

  const MAX_RESET_ATTEMPTS := 3

  datatype Event =
    | Start(config: Config)
    | Cancel
    | BeginReset
    | Truncate
    | TruncateFails(again: bool)
    | SeedDone(run: nat, ok: bool)
    | Send(run: nat, worker: nat)
    | Count(run: nat, worker: nat)
    | Record(run: nat, worker: nat, outcome: Outcome)
    | CloseJobs(run: nat)
    | WorkerQuits(run: nat, worker: nat)
    | Decide(run: nat)
    | Announce(run: nat)
    | CloseDone(run: nat)

  predicate At(s: State, run: nat, step: Step) { run in s.runs && s.runs[run].step == step }

  predicate WorkerIs(s: State, run: nat, w: nat) { run in s.runs && w < |s.runs[run].workers| }

  /** Start, Stop, Reset and setPhase each hold the mutex; Start and Reset refuse while a run is active, and Stop then
      does nothing, which is no event here. */
  predicate Enabled(s: State, e: Event) {
    match e
    case Start(config) => s.resetting == None && !Active(s.board.phase)
    case Cancel => s.resetting == None && Active(s.board.phase)
    case BeginReset => s.resetting == None && !Active(s.board.phase)
    case Truncate => s.resetting.Some?
    case TruncateFails(again) => s.resetting.Some? && (again ==> s.resetting.value < MAX_RESET_ATTEMPTS)
    case SeedDone(r, ok) => At(s, r, Seed) && (ok ==> s.resetting == None)
    case Send(r, w) =>
      && At(s, r, Dispatching) && WorkerIs(s, r, w) && s.runs[r].workers[w].Waiting?
      && s.runs[r].next <= s.runs[r].config.transfers
    case Count(r, w) => WorkerIs(s, r, w) && s.runs[r].workers[w].Taken?
    case Record(r, w, _) => WorkerIs(s, r, w) && s.runs[r].workers[w].Transferring?
    case CloseJobs(r) => At(s, r, Dispatching) && (s.runs[r].next > s.runs[r].config.transfers || r in s.cancelled)
    case WorkerQuits(r, w) => At(s, r, Draining) && WorkerIs(s, r, w) && s.runs[r].workers[w].Waiting?
    case Decide(r) => At(s, r, Draining) && forall w :: 0 <= w < |s.runs[r].workers| ==> s.runs[r].workers[w].Quit?
    case Announce(r) => s.resetting == None && r in s.runs && s.runs[r].step.Announcing?
    case CloseDone(r) => At(s, r, ClosingDone)
  }

  function Update(s: State, r: nat, e: Execution): State { s.(runs := s.runs[r := e]) }

  /** What the steps of a run do to its own record. */
  function Sending(e: Execution, w: nat): Execution
    requires w < |e.workers|
  {
    e.(workers := e.workers[w := Taken(e.next)], next := e.next + 1)
  }

  function Counting(e: Execution, w: nat): Execution
    requires w < |e.workers| && e.workers[w].Taken?
  {
    e.(workers := e.workers[w := Transferring(e.workers[w].job)], counters := Dispatched(e.counters))
  }

  function Recording(e: Execution, w: nat, outcome: Outcome): Execution
    requires w < |e.workers| && e.workers[w].Transferring?
  {
    e.(workers := e.workers[w := Waiting], counters := Recorded(e.counters, outcome),
       outcomes := e.outcomes[e.workers[w].job := outcome])
  }

  function Quitting(e: Execution, w: nat): Execution
    requires w < |e.workers|
  {
    e.(workers := e.workers[w := Quit])
  }

  function Seeded(e: Execution, ok: bool): Execution {
    if ok then e.(step := Dispatching, workers := seq(e.config.workers, _ => Waiting))
    else e.(step := Announcing(Stopped))
  }

  function Decided(e: Execution): Execution {
    e.(step := Announcing(if e.counters.dispatched == e.config.transfers then Finished else Stopped))
  }

  predicate RunEvent(e: Event) { !e.Start? && !e.Cancel? && !e.BeginReset? && !e.Truncate? && !e.TruncateFails? }

  function Apply(s: State, e: Event): State
    requires Enabled(s, e)
  {
    match e
    case Start(config) =>
      var id := s.started + 1;
      s.(board := StartBoard(id, config), runs := s.runs[id := NewExecution(config)], started := id)
    case Cancel => s.(cancelled := s.cancelled + {s.board.runID})
    case BeginReset => s.(resetting := Some(1))
    case Truncate => s.(board := RESET_BOARD, resetting := None, truncations := s.truncations + 1)
    case TruncateFails(again) => s.(resetting := if again then Some(s.resetting.value + 1) else None)
    case SeedDone(r, ok) =>
      Update(s, r, Seeded(s.runs[r], ok)).(board := if ok then s.board.(phase := Running) else s.board)
    case Send(r, w) => Update(s, r, Sending(s.runs[r], w))
    case Count(r, w) => Update(s, r, Counting(s.runs[r], w))
    case Record(r, w, outcome) => Update(s, r, Recording(s.runs[r], w, outcome))
    case CloseJobs(r) => Update(s, r, s.runs[r].(step := Draining))
    case WorkerQuits(r, w) => Update(s, r, Quitting(s.runs[r], w))
    case Decide(r) => Update(s, r, Decided(s.runs[r]))
    case Announce(r) => Update(s, r, s.runs[r].(step := ClosingDone)).(board := s.board.(phase := s.runs[r].step.phase))
    case CloseDone(r) => Update(s, r, s.runs[r].(step := Over)).(closed := s.closed + {r})
  }

  predicate ValidRun(es: seq<Event>) {
    es == [] || (ValidRun(es[..|es| - 1]) && Enabled(StateAfter(es[..|es| - 1]), es[|es| - 1]))
  }

  function StateAfter(es: seq<Event>): State {
    if es == [] then INIT
    else
      var s := StateAfter(es[..|es| - 1]);
      if Enabled(s, es[|es| - 1]) then Apply(s, es[|es| - 1]) else s
  }

  // ------------------------------------------------------------------------------------------- one run at a time

  /** The board speaks of the run that is live, if one is. */
  ghost predicate OneLive(s: State) {
    && (forall r :: r in s.runs ==> 0 < r <= s.started)
    && (forall r :: r in s.runs && Live(s.runs[r]) ==> r == s.board.runID && Active(s.board.phase))
    && (Active(s.board.phase) ==> s.board.runID in s.runs && Live(s.runs[s.board.runID]))
    && (s.resetting.Some? ==> !Active(s.board.phase))
  }

  /** What the board shows of its run, and which done channels are closed. */
  ghost predicate BoardOk(s: State) {
    && (s.board.phase != Idle ==> s.board.runID in s.runs && s.board.counters == s.board.runID
                                  && s.board.config == s.runs[s.board.runID].config)
    && (s.board.phase == Idle ==> s.board == RESET_BOARD)
    && (forall r :: r in s.closed <==> r in s.runs && s.runs[r].step == Over)
  }

  predicate WorkersQuit(e: Execution) { forall w :: 0 <= w < |e.workers| ==> e.workers[w].Quit? }

  /** The terminal phase of a run: FINISHED when all transfers were dispatched, and STOPPED when not. With no transfers
      to make, a run whose seeding failed is stopped too. */
  predicate PhaseFits(phase: Phase, e: Execution) {
    && (phase == Finished ==> e.counters.dispatched == e.config.transfers)
    && (phase == Stopped ==> e.config.transfers == 0 || e.counters.dispatched != e.config.transfers)
  }

  /** A terminal phase is announced once the workers are gone. */
  predicate StepOk(e: Execution) {
    && (e.step.Seed? ==> e.workers == [] && e.next == 1 && e.counters == ZERO)
    && (e.step.Dispatching? || e.step.Draining? ==> |e.workers| == e.config.workers)
    && (e.step.Announcing? || e.step.ClosingDone? || e.step.Over? ==> WorkersQuit(e))
    && (e.step.Announcing? ==> (e.step.phase == Finished || e.step.phase == Stopped) && PhaseFits(e.step.phase, e))
  }

  ghost predicate StepsOk(s: State) {
    && (forall r :: r in s.runs ==> StepOk(s.runs[r]))
    && (s.board.runID in s.runs && (s.board.phase == Finished || s.board.phase == Stopped) ==>
          !Live(s.runs[s.board.runID]) && PhaseFits(s.board.phase, s.runs[s.board.runID]))
  }

  lemma StepKeepsOneLive(s: State, e: Event)
    requires OneLive(s) && StepsOk(s) && Enabled(s, e)
    ensures OneLive(Apply(s, e))
  {
    hide Sending, Counting, Recording, Quitting, WorkersQuit;
    if RunEvent(e) {
      assert StepOk(s.runs[e.run]);
      StepsForward(s, e);
      hide Apply, Enabled, StepsOk;
    }
  }

  /** What a step of a run does to its program counter, its configuration and the board. */
  lemma StepsForward(s: State, e: Event)
    requires Enabled(s, e) && RunEvent(e)
    ensures var s', x := Apply(s, e), s.runs[e.run];
            && e.run in s.runs && s'.runs == s.runs[e.run := s'.runs[e.run]] && s'.started == s.started
               && s'.resetting == s.resetting
            && s'.runs[e.run].config == x.config
            && s'.board == (if e.Announce? then s.board.(phase := x.step.phase)
                            else if e.SeedDone? && e.ok then s.board.(phase := Running) else s.board)
            && (if e.Announce? then x.step.Announcing? && s'.runs[e.run].step == ClosingDone
                else if e.CloseDone?
                then x.step == ClosingDone && s'.runs[e.run].step == Over && s'.closed == s.closed + {e.run}
                else (Live(s'.runs[e.run]) <==> Live(x)) && (s'.runs[e.run].step == Over <==> x.step == Over))
            && (e.SeedDone? ==> Live(x)) && (!e.CloseDone? ==> s'.closed == s.closed)
  {
  }

  lemma StepKeepsBoard(s: State, e: Event)
    requires OneLive(s) && BoardOk(s) && StepsOk(s) && Enabled(s, e)
    ensures BoardOk(Apply(s, e))
  {
    hide Sending, Counting, Recording, Quitting, WorkersQuit;
    if RunEvent(e) {
      assert StepOk(s.runs[e.run]);
      StepsForward(s, e);
      hide Apply, Enabled, StepsOk;
    }
  }

  /** A step of one run touches no other run, its counters or its done channel; and once it has written its terminal
      phase, it touches the board and its own counters no more. */
  lemma RunsKeepToThemselves(es: seq<Event>, e: Event)
    requires ValidRun(es) && Enabled(StateAfter(es), e) && RunEvent(e)
    ensures var s, s' := StateAfter(es), Apply(StateAfter(es), e);
            && s'.runs == s.runs[e.run := s'.runs[e.run]]
               && (forall r :: r != e.run ==> (r in s'.closed <==> r in s.closed))
            && s'.board == s.board.(phase := s'.board.phase) && s'.truncations == s.truncations
            && (s'.board != s.board ==> e.run == s.board.runID && Live(s.runs[e.run]))
            && (!Live(s.runs[e.run]) ==> s'.runs[e.run] == s.runs[e.run].(step := s'.runs[e.run].step))
  {
    InvAlways(es);
    var s := StateAfter(es);
    StepsForward(s, e);
    assert StepOk(s.runs[e.run]) && OneLive(s);
    hide StateAfter, ValidRun, Inv, Sending, Counting, Recording, Quitting;
  }

  // ------------------------------------------------------------------------------------------- accounting of a run

  /** Transfers in flight. */
  function InFlight(ws: seq<Worker>): nat {
    if ws == [] then 0 else InFlight(ws[..|ws| - 1]) + if ws[|ws| - 1].Transferring? then 1 else 0
  }

  lemma {:induction false} InFlightUpdate(ws: seq<Worker>, w: nat, worker: Worker)
    requires w < |ws|
    ensures InFlight(ws[w := worker]) ==
            InFlight(ws) - (if ws[w].Transferring? then 1 else 0) + if worker.Transferring? then 1 else 0
  {
    var front := ws[..|ws| - 1];
    if w < |front| {
      InFlightUpdate(front, w, worker);
      assert ws[w := worker][..|ws| - 1] == front[w := worker];
    } else {
      assert ws[w := worker][..|ws| - 1] == front;
    }
  }

  lemma {:induction false} InFlightBound(ws: seq<Worker>)
    ensures InFlight(ws) <= |ws|
    ensures (forall w :: 0 <= w < |ws| ==> !ws[w].Transferring?) ==> InFlight(ws) == 0
  {
    if ws != [] { InFlightBound(ws[..|ws| - 1]); }
  }

  predicate Holds(worker: Worker, job: nat) { (worker.Taken? || worker.Transferring?) && worker.job == job }

  predicate InHand(ws: seq<Worker>, job: nat) { exists w :: 0 <= w < |ws| && Holds(ws[w], job) }

  /** Every job before next is done or in the hands of exactly one worker, never both. */
  ghost predicate HandsOk(ws: seq<Worker>, next: nat, done: map<nat, Outcome>) {
    && (forall n: nat :: n in done ==> 1 <= n < next)
    && (forall n: nat :: 1 <= n < next && n !in done ==> InHand(ws, n))
    && (forall w: nat, n: nat {:trigger Holds(ws[w], n)} :: w < |ws| && Holds(ws[w], n) ==> 1 <= n < next && n !in done)
    && (forall v: nat, w: nat, n: nat {:trigger Holds(ws[v], n), Holds(ws[w], n)} ::
          v < |ws| && w < |ws| && Holds(ws[v], n) && Holds(ws[w], n) ==> v == w)
  }

  lemma StillInHand(ws: seq<Worker>, w: nat, worker: Worker, n: nat)
    requires w < |ws| && InHand(ws, n) && !Holds(ws[w], n)
    ensures InHand(ws[w := worker], n)
  {
    var v :| 0 <= v < |ws| && Holds(ws[v], n);
    assert Holds(ws[w := worker][v], n);
  }

  /** Changing one worker's hands changes nobody else's. */
  lemma HandsOf(ws: seq<Worker>, w: nat, worker: Worker, v: nat, n: nat)
    requires w < |ws| && v < |ws|
    ensures Holds(ws[w := worker][v], n) <==> if v == w then Holds(worker, n) else Holds(ws[v], n)
  {
  }

  lemma HandsTake(ws: seq<Worker>, w: nat, next: nat, done: map<nat, Outcome>)
    requires HandsOk(ws, next, done) && w < |ws| && ws[w].Waiting? && next >= 1
    ensures HandsOk(ws[w := Taken(next)], next + 1, done)
  {
    var ws' := ws[w := Taken(next)];
    forall n: nat | 1 <= n < next + 1 && n !in done ensures InHand(ws', n) {
      if n == next { assert Holds(ws'[w], n); } else { StillInHand(ws, w, Taken(next), n); }
    }
    forall v: nat, n: nat {:trigger Holds(ws'[v], n)} | v < |ws'| && Holds(ws'[v], n)
      ensures 1 <= n < next + 1 && n !in done && (n == next <==> v == w) && (v != w ==> Holds(ws[v], n))
    {
      HandsOf(ws, w, Taken(next), v, n);
    }
  }

  /** A worker that goes on with the same job, or goes from no job to no job. */
  lemma HandsKeep(ws: seq<Worker>, w: nat, worker: Worker, next: nat, done: map<nat, Outcome>)
    requires HandsOk(ws, next, done) && w < |ws| && forall n: nat :: Holds(worker, n) <==> Holds(ws[w], n)
    ensures HandsOk(ws[w := worker], next, done)
  {
    var ws' := ws[w := worker];
    forall n: nat | 1 <= n < next && n !in done ensures InHand(ws', n) {
      if Holds(ws[w], n) { assert Holds(ws'[w], n); } else { StillInHand(ws, w, worker, n); }
    }
    forall v: nat, n: nat {:trigger Holds(ws'[v], n)} | v < |ws'| && Holds(ws'[v], n) ensures Holds(ws[v], n) {
      HandsOf(ws, w, worker, v, n);
    }
  }

  lemma HandsDrop(ws: seq<Worker>, w: nat, job: nat, outcome: Outcome, next: nat, done: map<nat, Outcome>)
    requires HandsOk(ws, next, done) && w < |ws| && Holds(ws[w], job)
    ensures HandsOk(ws[w := Waiting], next, done[job := outcome])
  {
    var ws' := ws[w := Waiting];
    forall n: nat | 1 <= n < next && n !in done[job := outcome] ensures InHand(ws', n) {
      StillInHand(ws, w, Waiting, n);
    }
    forall v: nat, n: nat {:trigger Holds(ws'[v], n)} | v < |ws'| && Holds(ws'[v], n)
      ensures Holds(ws[v], n) && v != w && n != job
    {
      HandsOf(ws, w, Waiting, v, n);
    }
  }

  function With(outcomes: map<nat, Outcome>, outcome: Outcome): set<nat> {
    set n | n in outcomes && outcomes[n] == outcome
  }

  /** The counters are the tally of the outcomes. */
  predicate Tallied(k: Counters, outcomes: map<nat, Outcome>) {
    && k.accepted == |With(outcomes, Accepted)|
    && k.rejectedInsufficient == |With(outcomes, RejectedInsufficient)|
    && k.conflictExhausted == |With(outcomes, ConflictExhausted)|
    && k.errors == |With(outcomes, Errors)|
  }

  lemma WithOneMore(outcomes: map<nat, Outcome>, n: nat, outcome: Outcome, o: Outcome)
    requires n !in outcomes
    ensures With(outcomes[n := outcome], o) == if o == outcome then With(outcomes, o) + {n} else With(outcomes, o)
  {
  }

  lemma TallyOne(outcomes: map<nat, Outcome>, n: nat, outcome: Outcome, o: Outcome)
    requires n !in outcomes
    ensures |With(outcomes[n := outcome], o)| == |With(outcomes, o)| + if o == outcome then 1 else 0
  {
    WithOneMore(outcomes, n, outcome, o);
  }

  /** Every job that is done has one of the four outcomes. */
  lemma OutcomesPartition(outcomes: map<nat, Outcome>)
    ensures outcomes.Keys == With(outcomes, Accepted) + With(outcomes, RejectedInsufficient)
                             + With(outcomes, ConflictExhausted) + With(outcomes, Errors)
    ensures |outcomes.Keys| == |With(outcomes, Accepted)| + |With(outcomes, RejectedInsufficient)|
                               + |With(outcomes, ConflictExhausted)| + |With(outcomes, Errors)|
  {
    var a, b := With(outcomes, Accepted), With(outcomes, RejectedInsufficient);
    var c, d := With(outcomes, ConflictExhausted), With(outcomes, Errors);
    assert outcomes.Keys == a + b + c + d;
    assert |a + b| == |a| + |b| by { assert a !! b; }
    assert |a + b + c| == |a + b| + |c| by { assert (a + b) !! c; }
    assert |a + b + c + d| == |a + b + c| + |d| by { assert (a + b + c) !! d; }
  }

  lemma TallyKeeps(k: Counters, outcomes: map<nat, Outcome>, n: nat, outcome: Outcome)
    requires Tallied(k, outcomes) && n !in outcomes
    ensures Tallied(Recorded(k, outcome), outcomes[n := outcome])
  {
    hide With;
    TallyOne(outcomes, n, outcome, Accepted);
    TallyOne(outcomes, n, outcome, RejectedInsufficient);
    TallyOne(outcomes, n, outcome, ConflictExhausted);
    TallyOne(outcomes, n, outcome, Errors);
  }

  ghost predicate ExecutionOk(e: Execution) {
    && 1 <= e.next <= e.config.transfers + 1 && |e.workers| <= e.config.workers
    && HandsOk(e.workers, e.next, e.outcomes)
    && Tallied(e.counters, e.outcomes)
    && e.counters.dispatched == Classified(e.counters) + InFlight(e.workers)
  }

  lemma SendKeeps(e: Execution, w: nat)
    requires ExecutionOk(e) && w < |e.workers| && e.workers[w].Waiting? && e.next <= e.config.transfers
    ensures ExecutionOk(Sending(e, w))
  {
    InFlightUpdate(e.workers, w, Taken(e.next));
    HandsTake(e.workers, w, e.next, e.outcomes);
    hide HandsOk, Tallied, InFlight;
  }

  lemma CountKeeps(e: Execution, w: nat)
    requires ExecutionOk(e) && w < |e.workers| && e.workers[w].Taken?
    ensures ExecutionOk(Counting(e, w))
  {
    var worker := Transferring(e.workers[w].job);
    InFlightUpdate(e.workers, w, worker);
    HandsKeep(e.workers, w, worker, e.next, e.outcomes);
    hide HandsOk, InFlight, With;
  }

  lemma RecordKeeps(e: Execution, w: nat, outcome: Outcome)
    requires ExecutionOk(e) && w < |e.workers| && e.workers[w].Transferring?
    ensures ExecutionOk(Recording(e, w, outcome))
  {
    var job := e.workers[w].job;
    assert Holds(e.workers[w], job);
    InFlightUpdate(e.workers, w, Waiting);
    HandsDrop(e.workers, w, job, outcome, e.next, e.outcomes);
    TallyKeeps(e.counters, e.outcomes, job, outcome);
    hide HandsOk, InFlight, Tallied;
  }

  lemma QuitKeeps(e: Execution, w: nat)
    requires ExecutionOk(e) && w < |e.workers| && e.workers[w].Waiting?
    ensures ExecutionOk(Quitting(e, w))
  {
    InFlightUpdate(e.workers, w, Quit);
    HandsKeep(e.workers, w, Quit, e.next, e.outcomes);
    hide HandsOk, Tallied, InFlight;
  }

  /** Where nobody holds a job there is none to account for. */
  lemma NoHands(ws: seq<Worker>)
    requires forall w :: 0 <= w < |ws| ==> ws[w].Waiting?
    ensures HandsOk(ws, 1, map[]) && InFlight(ws) == 0
  {
    InFlightBound(ws);
    assert forall w: nat, n: nat :: w < |ws| ==> !Holds(ws[w], n);
  }

  lemma NothingDone(e: Execution)
    requires ExecutionOk(e) && e.next == 1
    ensures e.outcomes == map[]
  {
    assert forall n: nat :: n !in e.outcomes;
    hide Tallied, InFlight;
  }

  lemma NoOutcomes()
    ensures Tallied(ZERO, map[])
  {
    forall o ensures With(map[], o) == {} {
    }
  }

  lemma SeedKeeps(e: Execution, ok: bool)
    requires ExecutionOk(e) && e.workers == [] && e.next == 1
    ensures ExecutionOk(Seeded(e, ok))
  {
    hide HandsOk, InFlight, Tallied;
    if ok {
      NothingDone(e);
      NoHands(e.workers);
      NoHands(Seeded(e, ok).workers);
    }
  }

  lemma StartsOk(config: Config)
    ensures ExecutionOk(NewExecution(config)) && StepOk(NewExecution(config))
  {
    NoHands([]);
    NoOutcomes();
    hide HandsOk, InFlight, Tallied;
  }

  ghost predicate Inv(s: State) {
    OneLive(s) && BoardOk(s) && StepsOk(s) && forall r :: r in s.runs ==> ExecutionOk(s.runs[r])
  }

  lemma StepKeepsExecution(s: State, e: Event)
    requires Enabled(s, e) && RunEvent(e) && ExecutionOk(s.runs[e.run]) && StepOk(s.runs[e.run])
    ensures ExecutionOk(Apply(s, e).runs[e.run])
  {
    hide ExecutionOk, WorkersQuit;
    var x := s.runs[e.run];
    match e {
      case SeedDone(_, ok) => SeedKeeps(x, ok);
      case Send(_, w) => SendKeeps(x, w);
      case Count(_, w) => CountKeeps(x, w);
      case Record(_, w, outcome) => RecordKeeps(x, w, outcome);
      case WorkerQuits(_, w) => QuitKeeps(x, w);
      case CloseJobs(_) => NewStep(x, Draining);
      case Decide(_) => NewStep(x, Decided(x).step);
      case Announce(_) => NewStep(x, ClosingDone);
      case CloseDone(_) => NewStep(x, Over);
    }
  }

  lemma NewStep(e: Execution, step: Step)
    requires ExecutionOk(e)
    ensures ExecutionOk(e.(step := step))
  {
    hide HandsOk, Tallied, InFlight;
  }

  lemma StepKeepsStep(s: State, e: Event)
    requires Enabled(s, e) && RunEvent(e) && StepOk(s.runs[e.run])
    ensures StepOk(Apply(s, e).runs[e.run])
    ensures !Live(s.runs[e.run]) ==> Apply(s, e).runs[e.run].counters == s.runs[e.run].counters
  {
  }

  lemma StepKeepsSteps(s: State, e: Event)
    requires OneLive(s) && BoardOk(s) && StepsOk(s) && Enabled(s, e)
    ensures StepsOk(Apply(s, e))
  {
    hide ExecutionOk, WorkersQuit;
    if RunEvent(e) {
      RunKeepsSteps(s, e);
    } else {
      if e.Start? { StartsOk(e.config); }
      hide StepOk, NewExecution;
    }
  }

  lemma RunKeepsSteps(s: State, e: Event)
    requires OneLive(s) && BoardOk(s) && StepsOk(s) && Enabled(s, e) && RunEvent(e)
    ensures StepsOk(Apply(s, e))
  {
    StepsForward(s, e);
    assert StepOk(s.runs[e.run]);
    StepKeepsStep(s, e);
    hide Apply, Enabled, WorkersQuit, StepOk;
  }

  lemma ExecutionsStayOk(s: State, e: Event)
    requires Inv(s) && Enabled(s, e)
    ensures forall r :: r in Apply(s, e).runs ==> ExecutionOk(Apply(s, e).runs[r])
  {
    hide OneLive, BoardOk, ExecutionOk, StepOk;
    if RunEvent(e) {
      StepsForward(s, e);
      assert StepOk(s.runs[e.run]);
      StepKeepsExecution(s, e);
      hide Apply, Enabled, StepsOk;
    } else if e.Start? {
      StartsOk(e.config);
      hide NewExecution;
    }
  }

  lemma StepKeepsInv(s: State, e: Event)
    requires Inv(s) && Enabled(s, e)
    ensures Inv(Apply(s, e))
  {
    hide OneLive, BoardOk, StepsOk, ExecutionOk, Apply, Enabled;
    StepKeepsOneLive(s, e);
    StepKeepsBoard(s, e);
    StepKeepsSteps(s, e);
    ExecutionsStayOk(s, e);
  }

  lemma {:induction false} InvAlways(es: seq<Event>)
    requires ValidRun(es)
    ensures Inv(StateAfter(es))
  {
    hide Enabled, Apply, Inv;
    if es != [] {
      InvAlways(es[..|es| - 1]);
      StepKeepsInv(StateAfter(es[..|es| - 1]), es[|es| - 1]);
    } else {
      InitOk();
    }
  }

  lemma InitOk()
    ensures Inv(INIT)
  {
  }

  // ------------------------------------------------------------------------------------------------ the theorems

  /** At every moment, for every run: dispatched is the sum of the four outcome counters and the transfers in flight,
      which are no more than the workers, all of which are there while the run dispatches; the counters tally the
      outcomes of the jobs, each classified once. */
  lemma CountersAddUp(es: seq<Event>, r: nat)
    requires ValidRun(es) && r in StateAfter(es).runs
    ensures var e := StateAfter(es).runs[r];
            && e.counters.dispatched == Classified(e.counters) + InFlight(e.workers)
               && InFlight(e.workers) <= e.config.workers
            && (e.step == Dispatching || e.step == Draining ==> |e.workers| == e.config.workers)
            && Tallied(e.counters, e.outcomes)
  {
    InvAlways(es);
    assert StepOk(StateAfter(es).runs[r]) && ExecutionOk(StateAfter(es).runs[r]);
    InFlightBound(StateAfter(es).runs[r].workers);
    hide StateAfter, ValidRun, Inv, Tallied, InFlight, HandsOk;
  }

  function Upto(n: nat): (s: set<nat>)
    ensures |s| == n && forall k: nat :: k in s <==> 1 <= k <= n
  {
    if n == 0 then {} else Upto(n - 1) + {n}
  }

  /** When the board says finished, the run it speaks of has sent all its jobs, every one of them has exactly one
      outcome, and nothing of it is in flight. */
  lemma FinishedMeansComplete(es: seq<Event>)
    requires ValidRun(es) && StateAfter(es).board.phase == Finished
    ensures var s := StateAfter(es);
            && s.board.runID in s.runs
            && var e := s.runs[s.board.runID];
               e.next == e.config.transfers + 1 && e.outcomes.Keys == Upto(e.config.transfers)
               && e.counters.dispatched == Classified(e.counters) == e.config.transfers && WorkersQuit(e)
  {
    InvAlways(es);
    var s := StateAfter(es);
    hide StateAfter, ValidRun;
    FinishedRun(s);
  }

  lemma FinishedRun(s: State)
    requires Inv(s) && s.board.phase == Finished
    ensures s.board.runID in s.runs
    ensures var e := s.runs[s.board.runID];
            && e.next == e.config.transfers + 1 && e.outcomes.Keys == Upto(e.config.transfers)
            && e.counters.dispatched == Classified(e.counters) == e.config.transfers && WorkersQuit(e)
  {
    assert ExecutionOk(s.runs[s.board.runID]) && StepOk(s.runs[s.board.runID]);
    hide ExecutionOk, OneLive;
    Complete(s.runs[s.board.runID]);
  }

  /** When the board says that its run is over, with at least one transfer to make: FINISHED if and only if every job
      has its outcome, STOPPED if and only if one has none. */
  lemma PhaseTellsCompletion(es: seq<Event>)
    requires ValidRun(es) && StateAfter(es).board.config.transfers > 0
    requires StateAfter(es).board.phase == Finished || StateAfter(es).board.phase == Stopped
    ensures var s := StateAfter(es);
            && s.board.runID in s.runs
            && var e := s.runs[s.board.runID];
               WorkersQuit(e) && s.board.config == e.config
               && (s.board.phase == Finished <==> e.outcomes.Keys == Upto(e.config.transfers))
  {
    InvAlways(es);
    var s := StateAfter(es);
    hide StateAfter, ValidRun;
    TerminalRun(s);
  }

  lemma TerminalRun(s: State)
    requires Inv(s) && (s.board.phase == Finished || s.board.phase == Stopped) && s.board.config.transfers > 0
    ensures s.board.runID in s.runs && WorkersQuit(s.runs[s.board.runID])
    ensures s.board.config == s.runs[s.board.runID].config
    ensures s.board.phase == Finished
            <==> s.runs[s.board.runID].outcomes.Keys == Upto(s.runs[s.board.runID].config.transfers)
  {
    var e := s.runs[s.board.runID];
    assert ExecutionOk(e) && StepOk(e);
    hide ExecutionOk, OneLive, Upto;
    Complete(e);
  }

  lemma Complete(e: Execution)
    requires ExecutionOk(e) && WorkersQuit(e)
    ensures e.outcomes.Keys == Upto(e.next - 1)
    ensures e.counters.dispatched == Classified(e.counters) == e.next - 1
  {
    hide InFlight, With, Upto, HandsOk;
    InFlightBound(e.workers);
    AllDone(e);
    OutcomesPartition(e.outcomes);
    hide WorkersQuit;
  }

  lemma AllDone(e: Execution)
    requires ExecutionOk(e) && WorkersQuit(e)
    ensures e.outcomes.Keys == Upto(e.next - 1)
  {
    hide Tallied, InFlight, Upto;
    forall n: nat | 1 <= n < e.next ensures n in e.outcomes {
      assert !InHand(e.workers, n);
    }
  }

  /** At most one run has its terminal phase still to write, and the board is about that run. */
  lemma OneLiveRun(es: seq<Event>, q: nat, r: nat)
    requires ValidRun(es) && q in StateAfter(es).runs && r in StateAfter(es).runs
    requires Live(StateAfter(es).runs[q]) && Live(StateAfter(es).runs[r])
    ensures q == r == StateAfter(es).board.runID && Active(StateAfter(es).board.phase)
  {
    InvAlways(es);
    hide StateAfter, ValidRun, BoardOk, StepsOk, ExecutionOk;
  }

  /** Whenever a reset truncates, no run is between its Start and its terminal phase, and no worker is left. */
  lemma ResetTruncatesAtRest(es: seq<Event>, r: nat)
    requires ValidRun(es) && Enabled(StateAfter(es), Truncate) && r in StateAfter(es).runs
    ensures !Live(StateAfter(es).runs[r]) && WorkersQuit(StateAfter(es).runs[r])
  {
    InvAlways(es);
    assert StepOk(StateAfter(es).runs[r]);
    hide StateAfter, ValidRun, BoardOk, ExecutionOk;
  }

  /** Stop waits for done to be closed: by then the run has written its terminal phase, and unless a newer run or a
      reset has come since, the board shows it. */
  lemma StopAnswersAtRest(es: seq<Event>, r: nat)
    requires ValidRun(es) && r in StateAfter(es).closed
    ensures var s := StateAfter(es);
            && r in s.runs && !Live(s.runs[r])
            && (s.board.runID == r ==> s.board.phase == Finished || s.board.phase == Stopped)
  {
    InvAlways(es);
    var s := StateAfter(es);
    hide StateAfter, ValidRun, StepsOk, ExecutionOk;
    assert s.runs[r].step == Over && 0 < r;
  }

  /** The jobs that the workers of run r received, in order. */
  function Sent(es: seq<Event>, r: nat): seq<nat> {
    if es == [] then []
    else
      var before, e := es[..|es| - 1], es[|es| - 1];
      var sends := e.Send? && e.run == r && r in StateAfter(before).runs;
      Sent(before, r) + if sends then [StateAfter(before).runs[r].next] else []
  }

  /** Every run sends its jobs once, in the order 1, 2, 3, ... */
  lemma {:induction false} JobsAreSentInOrder(es: seq<Event>, r: nat)
    requires ValidRun(es)
    ensures r in StateAfter(es).runs ==> StateAfter(es).runs[r].next >= 1
    ensures Sent(es, r) == if r in StateAfter(es).runs then Jobs(StateAfter(es).runs[r].next - 1) else []
  {
    NoJobs();
    hide Jobs, Apply, Enabled, Inv;
    if es != [] {
      var before, e := es[..|es| - 1], es[|es| - 1];
      JobsAreSentInOrder(before, r);
      InvAlways(before);
      var s := StateAfter(before);
      NextMoves(s, e, r);
      if r in s.runs { OneMoreJob(s.runs[r].next - 1); }
    }
  }

  lemma NextMoves(s: State, e: Event, r: nat)
    requires Inv(s) && Enabled(s, e)
    ensures var s' := Apply(s, e);
            if r in s.runs
            then r in s'.runs && s'.runs[r].next == s.runs[r].next + (if e.Send? && e.run == r then 1 else 0)
            else !(e.Send? && e.run == r) && (r in s'.runs ==> s'.runs[r].next == 1)
  {
    hide Inv, Apply, Enabled;
    if RunEvent(e) {
      NextOfRun(s, e);
    } else if e.Start? {
      NewRunIsNew(s);
      StartAddsRun(s, e);
    } else {
      SameRuns(s, e);
    }
  }

  lemma StartAddsRun(s: State, e: Event)
    requires Enabled(s, e) && e.Start?
    ensures Apply(s, e).runs == s.runs[s.started + 1 := NewExecution(e.config)] && NewExecution(e.config).next == 1
  {
  }

  lemma SameRuns(s: State, e: Event)
    requires Enabled(s, e) && !RunEvent(e) && !e.Start?
    ensures Apply(s, e).runs == s.runs
  {
  }

  lemma NewRunIsNew(s: State)
    requires Inv(s)
    ensures s.started + 1 !in s.runs
  {
    hide BoardOk, StepsOk, ExecutionOk;
  }

  lemma NextOfRun(s: State, e: Event)
    requires Enabled(s, e) && RunEvent(e)
    ensures e.run in s.runs && Apply(s, e).runs == s.runs[e.run := Apply(s, e).runs[e.run]]
    ensures Apply(s, e).runs[e.run].next == s.runs[e.run].next + if e.Send? then 1 else 0
  {
  }
}
