/** How the runs of the simulator end: every run can be brought to its end, FINISHED where it dispatches all its jobs
    and STOPPED where it is cancelled first; and simulator and bank together come to such an end. */
module Endings {
  import opened Common
  import opened Runner
  import opened Simulator

  /** How much a worker has still to do before it has quit. */
  function Ahead(worker: Worker): nat {
    match worker
    case Taken(_) => 3
    case Transferring(_) => 2
    case Waiting => 1
    case Quit => 0
  }

  function Work(ws: seq<Worker>): nat { if ws == [] then 0 else Work(ws[..|ws| - 1]) + Ahead(ws[|ws| - 1]) }

  lemma {:induction false} WorkUpdate(ws: seq<Worker>, w: nat, worker: Worker)
    requires w < |ws|
    ensures Work(ws[w := worker]) == Work(ws) - Ahead(ws[w]) + Ahead(worker)
  {
    var front := ws[..|ws| - 1];
    if w < |front| {
      WorkUpdate(front, w, worker);
      assert ws[w := worker][..|ws| - 1] == front[w := worker];
    } else {
      assert ws[w := worker][..|ws| - 1] == front;
    }
  }

  /** Run r is on the board, in the middle of its work, and nobody resets. */
  predicate Goes(s: State, r: nat, step: Step) {
    s.resetting == None && s.board.runID == r && At(s, r, step)
  }

  /** One step of worker w towards its end: it transfers, records or quits. */
  lemma WorkerStep(es: seq<Event>, s: State, r: nat, w: nat) returns (es': seq<Event>, s': State)
    requires Runs(es, s) && Goes(s, r, Draining) && w < |s.runs[r].workers| && !s.runs[r].workers[w].Quit?
    ensures es <= es' && Runs(es', s') && Goes(s', r, Draining)
    ensures s'.runs[r].next == s.runs[r].next && s'.runs[r].config == s.runs[r].config
    ensures Work(s'.runs[r].workers) < Work(s.runs[r].workers)
  {
    hide Runs, Work;
    var worker := s.runs[r].workers[w];
    var e := if worker.Taken? then Count(r, w) else if worker.Waiting? then WorkerQuits(r, w)
             else Record(r, w, Accepted);
    OneMore(es, s, e);
    es', s' := es + [e], Apply(s, e);
    WorkUpdate(s.runs[r].workers, w, s'.runs[r].workers[w]);
  }

  /** Once the channel is closed, the workers come to their end one after the other. */
  lemma {:induction false} Drain(es: seq<Event>, s: State, r: nat) returns (es': seq<Event>, s': State)
    requires Runs(es, s) && Goes(s, r, Draining)
    ensures es <= es' && Runs(es', s') && Goes(s', r, Draining) && WorkersQuit(s'.runs[r])
    ensures s'.runs[r].next == s.runs[r].next && s'.runs[r].config == s.runs[r].config
    decreases Work(s.runs[r].workers)
  {
    assert r in s.runs;
    hide Runs, Goes, Work;
    if w :| 0 <= w < |s.runs[r].workers| && !s.runs[r].workers[w].Quit? {
      var es1, s1 := WorkerStep(es, s, r, w);
      es', s' := Drain(es1, s1, r);
    } else {
      es', s' := es, s;
    }
  }

  /** Then the run decides, and announces its phase. */
  lemma Conclude(es: seq<Event>, s: State, r: nat) returns (es': seq<Event>, s': State)
    requires Runs(es, s) && Goes(s, r, Draining) && WorkersQuit(s.runs[r])
    ensures es <= es' && Runs(es', s') && r in s'.runs && s'.board.runID == r && s'.runs[r].config == s.runs[r].config
    ensures s'.board.phase == if s.runs[r].next == s.runs[r].config.transfers + 1 then Finished else Stopped
  {
    AllCounted(es, s, r);
    hide Runs, WorkersQuit;
    assert Enabled(s, Decide(r)) by { QuitToDecide(s, r); }
    OneMore(es, s, Decide(r));
    var s1 := Apply(s, Decide(r));
    OneMore(es + [Decide(r)], s1, Event.Announce(r));
    es', s' := es + [Decide(r)] + [Event.Announce(r)], Apply(s1, Event.Announce(r));
  }

  lemma QuitToDecide(s: State, r: nat)
    requires At(s, r, Draining) && WorkersQuit(s.runs[r])
    ensures Enabled(s, Decide(r))
  {
  }

  lemma AllCounted(es: seq<Event>, s: State, r: nat)
    requires Runs(es, s) && r in s.runs && WorkersQuit(s.runs[r])
    ensures s.runs[r].counters.dispatched == s.runs[r].next - 1
  {
    InvAlways(es);
    Complete(s.runs[r]) by { hide OneLive, BoardOk, StepsOk; }
  }

  /** A run whose channel can be closed comes to its end. */
  lemma CloseAndEnd(es: seq<Event>, s: State, r: nat) returns (es': seq<Event>, s': State)
    requires Runs(es, s) && Goes(s, r, Dispatching) && Enabled(s, CloseJobs(r))
    ensures es <= es' && Runs(es', s') && r in s'.runs && s'.board.runID == r && s'.runs[r].config == s.runs[r].config
    ensures s'.board.phase == if s.runs[r].next == s.runs[r].config.transfers + 1 then Finished else Stopped
  {
    hide Runs, WorkersQuit;
    OneMore(es, s, CloseJobs(r));
    var es1, s1 := Drain(es + [CloseJobs(r)], Apply(s, CloseJobs(r)), r);
    es', s' := Conclude(es1, s1, r);
  }

  /** What the first worker has to do before all jobs are sent. */
  function Sending(e: Execution): nat
    requires e.next <= e.config.transfers + 1 && e.workers != []
  {
    4 * (e.config.transfers + 1 - e.next) + Ahead(e.workers[0])
  }

  predicate CanSend(e: Execution) { 1 <= e.next <= e.config.transfers + 1 && e.workers != [] && !e.workers[0].Quit? }

  lemma SendingStep(es: seq<Event>, s: State, r: nat) returns (es': seq<Event>, s': State)
    requires Runs(es, s) && Goes(s, r, Dispatching) && CanSend(s.runs[r])
    requires s.runs[r].next <= s.runs[r].config.transfers
    ensures es <= es' && Runs(es', s') && Goes(s', r, Dispatching) && CanSend(s'.runs[r])
    ensures s'.runs[r].config == s.runs[r].config && Sending(s'.runs[r]) < Sending(s.runs[r])
  {
    hide Runs;
    var worker := s.runs[r].workers[0];
    var e := if worker.Taken? then Count(r, 0) else if worker.Waiting? then Send(r, 0) else Record(r, 0, Accepted);
    OneMore(es, s, e);
    es', s' := es + [e], Apply(s, e);
  }

  /** One worker is enough to send all jobs. */
  lemma {:induction false} SendAll(es: seq<Event>, s: State, r: nat) returns (es': seq<Event>, s': State)
    requires Runs(es, s) && Goes(s, r, Dispatching) && CanSend(s.runs[r])
    ensures es <= es' && Runs(es', s') && Goes(s', r, Dispatching)
    ensures s'.runs[r].config == s.runs[r].config && s'.runs[r].next == s.runs[r].config.transfers + 1
    decreases Sending(s.runs[r])
  {
    assert r in s.runs;
    hide Runs, Goes;
    if s.runs[r].next <= s.runs[r].config.transfers {
      var es1, s1 := SendingStep(es, s, r);
      es', s' := SendAll(es1, s1, r);
    } else {
      es', s' := es, s;
    }
  }

  /** The board shows the configuration of its run. */
  lemma ShownConfig(es: seq<Event>, s: State, r: nat)
    requires Runs(es, s) && r in s.runs && s.board.runID == r && s.board.phase != Idle
    ensures s.board.config == s.runs[r].config
  {
    InvAlways(es);
    hide StateAfter, ValidRun, OneLive, StepsOk, ExecutionOk;
  }

  /** From any reachable state in which no run is active and nobody resets, a run with at least one worker can be
      started and brought to FINISHED, however many transfers it is to make; and if it is to make any, it can be
      cancelled and brought to STOPPED just as well. */
  lemma EveryRunCanEnd(es: seq<Event>, config: Config) returns (finished: seq<Event>, stopped: seq<Event>)
    requires ValidRun(es) && !Active(StateAfter(es).board.phase) && StateAfter(es).resetting == None
    requires config.workers > 0
    ensures es <= finished && ValidRun(finished) && IsOver(StateAfter(finished), StateAfter(es), config, Finished)
    ensures config.transfers > 0 ==>
              es <= stopped && ValidRun(stopped) && IsOver(StateAfter(stopped), StateAfter(es), config, Stopped)
  {
    var es1, s1 := StartAndSeed(es, StateAfter(es), config);
    assert forall f, s {:trigger Runs(f, s)} :: Runs(f, s) ==> ValidRun(f) && StateAfter(f) == s;
    hide Runs, ValidRun, StateAfter, Goes, CanSend;
    finished := RunToEnd(es1, s1, config);
    stopped := finished;
    if config.transfers > 0 { stopped := CancelAndEnd(es1, s1, config); }
  }

  /** The board shows the end of the run that came after s. */
  predicate IsOver(s': State, s: State, config: Config, phase: Phase) {
    s'.board.phase == phase && s'.board.config == config && s'.board.runID == s.started + 1
  }

  lemma RunToEnd(es: seq<Event>, s: State, config: Config) returns (es': seq<Event>)
    requires Runs(es, s) && Goes(s, s.board.runID, Dispatching) && CanSend(s.runs[s.board.runID])
    requires s.runs[s.board.runID].config == config
    ensures es <= es' && ValidRun(es')
    ensures var b := StateAfter(es').board; b.phase == Finished && b.config == config && b.runID == s.board.runID
  {
    assert forall f, s {:trigger Runs(f, s)} :: Runs(f, s) ==> ValidRun(f) && StateAfter(f) == s;
    hide Runs, ValidRun, StateAfter, CanSend;
    var r := s.board.runID;
    var es1, s1 := SendAll(es, s, r);
    var s': State;
    es', s' := CloseAndEnd(es1, s1, r);
    ShownConfig(es', s', r);
  }

  lemma CancelAndEnd(es: seq<Event>, s: State, config: Config) returns (es': seq<Event>)
    requires Runs(es, s) && Goes(s, s.board.runID, Dispatching) && s.board.phase == Running
    requires s.runs[s.board.runID].config == config && s.runs[s.board.runID].next <= config.transfers
    ensures es <= es' && ValidRun(es')
    ensures var b := StateAfter(es').board; b.phase == Stopped && b.config == config && b.runID == s.board.runID
  {
    assert forall f, s {:trigger Runs(f, s)} :: Runs(f, s) ==> ValidRun(f) && StateAfter(f) == s;
    hide Runs, ValidRun, StateAfter;
    var r := s.board.runID;
    OneMore(es, s, Cancel);
    var s': State;
    es', s' := CloseAndEnd(es + [Cancel], Apply(s, Cancel), r);
    ShownConfig(es', s', r);
  }

  lemma StartAndSeed(es: seq<Event>, s: State, config: Config) returns (es': seq<Event>, s': State)
    requires Runs(es, s) && !Active(s.board.phase) && s.resetting == None && config.workers > 0
    ensures es <= es' && Runs(es', s') && Goes(s', s.started + 1, Dispatching) && s'.board.phase == Running
    ensures s'.runs[s.started + 1].config == config && CanSend(s'.runs[s.started + 1])
            && s'.runs[s.started + 1].next == 1
  {
    hide Runs;
    OneMore(es, s, Event.Start(config));
    var s1, r := Apply(s, Event.Start(config)), s.started + 1;
    OneMore(es + [Event.Start(config)], s1, SeedDone(r, true));
    es', s' := es + [Event.Start(config)] + [SeedDone(r, true)], Apply(s1, SeedDone(r, true));
  }
}
