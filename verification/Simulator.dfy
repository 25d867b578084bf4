/** The runner as the object it is: fields behind a mutex, which Start, Stop, Reset and setPhase update in place. */
module Simulator {
  import opened Common
  import opened Runner

  /** How an attempt to truncate ends: done, without its locks, or in another error, which may also be that the caller
      gave up while it waited for the attempt. */
  datatype Attempt = Truncated | LockFailure | Broken

  class Simulator {
    var phase: Phase
    var runID: nat
    var config: Config
    var counters: nat
    var runs: map<nat, Execution>
    var started: nat
    var cancelled: set<nat>
    var closed: set<nat>
    var resetting: Option<nat>
    var truncations: nat
    ghost var run: seq<Event>

    constructor ()
      ensures Valid() && run == [] && phase == Idle && resetting == None
    {
      phase, runID, config, counters := Idle, 0, DEFAULT_CONFIG, 0;
      runs, started, cancelled, closed, resetting, truncations := map[], 0, {}, {}, None, 0;
      run := [];
    }

    function Now(): State
      reads this
    {
      State(Board(phase, runID, config, counters), runs, started, cancelled, closed, resetting, truncations)
    }

    ghost predicate Valid()
      reads this
    {
      Runs(run, Now())
    }

    /** Refused while a run is active; otherwise a new run with blank counters of its own. */
    method Start(cfg: Config) returns (ok: bool)
      requires Valid() && resetting == None
      modifies this
      ensures Valid() && ok == !Active(old(phase))
      ensures if ok then phase == Seeding && runID == counters == started == old(started) + 1 && config == cfg
                         && runs == old(runs)[runID := NewExecution(cfg)]
              else Now() == old(Now())
      ensures cancelled == old(cancelled) && closed == old(closed) && truncations == old(truncations)
    {
      ok := phase != Seeding && phase != Running;
      if ok {
        OneMore(run, Now(), Event.Start(cfg));
        hide Runs, NewExecution;
        started := started + 1;
        phase, runID, config, counters := Seeding, started, cfg, started;
        runs := runs[started := NewExecution(cfg)];
        run := run + [Event.Start(cfg)];
      }
    }

    /** Cancels the active run, if there is one; its done channel is what the caller then waits for. */
    method Stop() returns (done: Option<nat>)
      requires Valid() && resetting == None
      modifies this
      ensures Valid() && Now() == old(Now()).(cancelled := cancelled)
      ensures if Active(old(phase)) then done == Some(runID) && cancelled == old(cancelled) + {runID}
              else done == None && cancelled == old(cancelled)
    {
      done := None;
      if phase == Seeding || phase == Running {
        OneMore(run, Now(), Event.Cancel);
        hide Runs;
        cancelled := cancelled + {runID};
        done := Some(runID);
        run := run + [Event.Cancel];
      }
    }

    /** The attempts to truncate: a lock failure is retried, up to the third attempt; any other error ends them. */
    method Retry(tries: nat -> Attempt) returns (done: bool)
      requires Valid() && resetting == Some(1)
      modifies this`resetting, this`run
      ensures Valid() && done == resetting.Some? == Succeeds(tries)
    {
      hide Runs;
      var k := 1;
      while resetting.Some? && tries(k) != Truncated
        invariant Valid() && 1 <= k <= MAX_RESET_ATTEMPTS + 1
        invariant forall j :: 1 <= j < k - 1 ==> tries(j) == LockFailure
        invariant resetting.Some? ==>
                    k <= MAX_RESET_ATTEMPTS && resetting == Some(k) && (k > 1 ==> tries(k - 1) == LockFailure)
        invariant resetting == None ==>
                    k > 1 && tries(k - 1) != Truncated && (tries(k - 1) == Broken || k > MAX_RESET_ATTEMPTS)
        decreases resetting.Some?, MAX_RESET_ATTEMPTS + 1 - k
      {
        var again := tries(k) == LockFailure && k < MAX_RESET_ATTEMPTS;
        OneMore(run, Now(), TruncateFails(again));
        resetting := if again then Some(k + 1) else None;
        run := run + [TruncateFails(again)];
        k := k + 1;
      }
      done := resetting.Some?;
      if done { FirstSuccess(tries, k); } else { FirstFailure(tries, k - 1); }
    }

    /** The tables are truncated, and the board is wiped. No worker of any run is left when that happens. */
    method Wipe()
      requires Valid() && resetting.Some?
      modifies this`phase, this`runID, this`config, this`counters, this`resetting, this`truncations, this`run
      ensures Valid() && resetting == None && truncations == old(truncations) + 1 && Now().board == RESET_BOARD
      ensures forall r :: r in runs ==> !Live(runs[r]) && WorkersQuit(runs[r])
    {
      AtRest(run, Now());
      OneMore(run, Now(), Truncate);
      hide Runs, Live, WorkersQuit;
      phase, runID, config, counters := Idle, 0, DEFAULT_CONFIG, 0;
      resetting, truncations := None, truncations + 1;
      run := run + [Truncate];
    }

    /** Refused while a run is active. Otherwise the mutex is held until the tables are truncated, the locks could not
        be had three times, or anything else failed; and a failed reset leaves everything as it was. */
    method Reset(tries: nat -> Attempt) returns (ok: bool)
      requires Valid() && resetting == None
      modifies this`phase, this`runID, this`config, this`counters, this`resetting, this`truncations, this`run
      ensures Valid() && resetting == None
      ensures ok == (!Active(old(phase)) && Succeeds(tries))
      ensures truncations == old(truncations) + if ok then 1 else 0
      ensures if ok then Now().board == RESET_BOARD else Now() == old(Now())
      ensures ok ==> phase == Idle && runID == 0 && config == Config(40, 1500, 60, 16) && counters == 0
      ensures ok ==> forall r :: r in runs ==> !Live(runs[r]) && WorkersQuit(runs[r])
    {
      hide Runs;
      ok := false;
      if phase != Seeding && phase != Running {
        OneMore(run, Now(), BeginReset);
        resetting := Some(1);
        run := run + [BeginReset];
        ok := Retry(tries);
        if ok { Wipe(); }
      }
    }

    /** setPhase with the terminal phase that run r has decided on. From then on no run is live, so that Start and Reset
        are accepted again; and FINISHED is written if and only if every job of the run has its one outcome. */
    method Announce(r: nat)
      requires Valid() && resetting == None && r in runs && runs[r].step.Announcing?
      modifies this
      ensures Valid() && phase == old(runs[r].step.phase) && r == runID
              && runs == old(runs)[r := old(runs[r]).(step := ClosingDone)]
      ensures Now().board == old(Now()).board.(phase := phase) && closed == old(closed)
              && truncations == old(truncations)
      ensures !Active(phase) && forall q :: q in runs ==> !Live(runs[q])
      ensures phase == Finished || phase == Stopped
      ensures phase == Finished ==> runs[r].outcomes.Keys == Upto(config.transfers)
                                    && Classified(runs[r].counters) == config.transfers
      ensures config.transfers > 0 ==> (phase == Finished <==> runs[r].outcomes.Keys == Upto(config.transfers))
    {
      IsLive(run, Now(), r);
      OneMore(run, Now(), Event.Announce(r));
      Announced(run, Now(), r);
      hide Runs, Live, Upto, Classified;
      phase := runs[r].step.phase;
      runs := runs[r := runs[r].(step := ClosingDone)];
      run := run + [Event.Announce(r)];
    }
  }

  /** The attempts of a reset fail on their locks up to the one that truncates, which is the third at the latest. */
  predicate Succeeds(tries: nat -> Attempt) {
    exists k :: 1 <= k <= 3 && LocksOnly(tries, k) && tries(k) == Truncated
  }

  predicate LocksOnly(tries: nat -> Attempt, k: nat) { forall j :: 1 <= j < k ==> tries(j) == LockFailure }

  lemma FirstSuccess(tries: nat -> Attempt, k: nat)
    requires 1 <= k <= MAX_RESET_ATTEMPTS && LocksOnly(tries, k) && tries(k) == Truncated
    ensures Succeeds(tries)
  {
  }

  lemma FirstFailure(tries: nat -> Attempt, k: nat)
    requires k >= 1 && LocksOnly(tries, k)
             && (tries(k) == Broken || (tries(k) == LockFailure && k >= MAX_RESET_ATTEMPTS))
    ensures !Succeeds(tries)
  {
  }

  ghost predicate Runs(es: seq<Event>, s: State) { ValidRun(es) && StateAfter(es) == s }

  lemma OneMore(es: seq<Event>, s: State, e: Event)
    requires Runs(es, s) && Enabled(s, e)
    ensures Runs(es + [e], Apply(s, e))
  {
    hide Enabled, Apply;
    assert (es + [e])[..|es|] == es;
  }

  lemma AtRest(es: seq<Event>, s: State)
    requires Runs(es, s) && s.resetting.Some?
    ensures forall r :: r in s.runs ==> !Live(s.runs[r]) && WorkersQuit(s.runs[r])
  {
    forall r | r in s.runs ensures !Live(s.runs[r]) && WorkersQuit(s.runs[r]) {
      ResetTruncatesAtRest(es, r);
    }
    hide StateAfter, ValidRun;
  }

  /** The runs once r has announced its phase. */
  lemma Announced(es: seq<Event>, s: State, r: nat)
    requires Runs(es, s) && Enabled(s, Event.Announce(r))
    ensures var s' := Apply(s, Event.Announce(r));
            && !Active(s'.board.phase) && (forall q :: q in s'.runs ==> !Live(s'.runs[q]))
            && (s'.board.phase == Finished ==>
                  && s'.runs[r].outcomes.Keys == Upto(s'.board.config.transfers)
                  && Classified(s'.runs[r].counters) == s'.board.config.transfers)
            && (s'.board.phase == Finished || s'.board.phase == Stopped)
            && (s'.board.config.transfers > 0 ==>
                  (s'.board.phase == Finished <==> s'.runs[r].outcomes.Keys == Upto(s'.board.config.transfers)))
  {
    var s' := Apply(s, Event.Announce(r));
    IsLive(es, s, r);
    OneMore(es, s, Event.Announce(r));
    TerminalPhase(es, s, r);
    forall q | q in s'.runs ensures !Live(s'.runs[q]) {
      if q != r && Live(s.runs[q]) { OneLiveRun(es, q, r); }
    }
    if s'.board.phase == Finished { FinishedMeansComplete(es + [Event.Announce(r)]); }
    if s'.board.config.transfers > 0 { PhaseTellsCompletion(es + [Event.Announce(r)]); }
    hide StateAfter, ValidRun, Upto, Classified;
  }

  lemma TerminalPhase(es: seq<Event>, s: State, r: nat)
    requires Runs(es, s) && r in s.runs && s.runs[r].step.Announcing?
    ensures s.runs[r].step.phase == Finished || s.runs[r].step.phase == Stopped
    ensures !Active(s.runs[r].step.phase) && r in s.runs && s.runs[r].config == s.board.config
  {
    InvAlways(es);
    IsLive(es, s, r);
    assert StepOk(s.runs[r]);
    hide StateAfter, ValidRun, ExecutionOk;
  }

  lemma IsLive(es: seq<Event>, s: State, r: nat)
    requires Runs(es, s) && r in s.runs && s.runs[r].step.Announcing?
    ensures r == s.board.runID
  {
    OneLiveRun(es, r, r);
    hide StateAfter, ValidRun;
  }
}
