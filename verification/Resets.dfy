/** How a reset ends (internal/simulation/simulation.go): LOCK TABLE is tried three times, and then no more. */
module Resets {
  import opened Common
  import opened Bank
  import opened Protocol
  import opened Invariant
  import opened Refinement
  import opened Steps
  import opened Locks
  import Database
  import Outcomes
  import Effects

  /** While it is under way a reset has given up on its locks fewer than three times, as often as it counts; a completed
      one at most twice; and one that ends in an error exactly three times, unless the database failed it. */
  predicate Attempts(es: seq<Event>, c: nat, cl: Client) {
    && (!cl.pc.Done? ==> LockFailures(es, c) == cl.attempt < 3)
    && (cl.pc == Done(Completed) ==> LockFailures(es, c) < 3)
    && (cl.pc == Done(Internal) ==> LockFailures(es, c) == 3 || Outcomes.Broken(es, c))
    && (cl.pc.Done? ==> cl.pc.result == Completed || cl.pc.result == Internal)
  }

  lemma FailuresAppend(es: seq<Event>, e: Event, c: nat)
    ensures LockFailures(es + [e], c) == LockFailures(es, c) + if e == LockFail(c) then 1 else 0
  {
    assert (es + [e])[..|es|] == es;
  }

  /** The two statements of a reset. */
  lemma ResetDoes(db: Db, cl: Client, newId: Id, now: nat, clock: nat, external: bool)
    requires Typed(cl) && (cl.pc.LockTables? || cl.pc.TruncateAll?)
    ensures var cl' := DoStatement(db, cl, newId, now, clock, external).cl;
            cl'.attempt == cl.attempt && (cl'.pc == TruncateAll || cl'.pc == Done(Completed))
  {
    hide DoInsert, DoFind, DoLockRow, DoCountBooked, DoReadAcc, DoLockAcc, DoUpdateAcc, DoCommit, Continues;
  }

  lemma ResetStands(s: State, c: nat)
    requires Inv(s) && c in s.clients && s.clients[c].w.call.CallReset?
    ensures var cl := s.clients[c]; cl.pc.Done? || cl.pc.LockTables? || cl.pc.TruncateAll?
  {
    assert ClientOk(s, s.clients[c]);
    if !s.clients[c].pc.Done? { Effects.SmallPcs(s.clients[c], s.external); }
    hide Inv, Shape, Linked;
  }

  lemma StatementKeepsAttempts(es: seq<Event>, c: nat, cl: Client, cl': Client, e: Event)
    requires Attempts(es, c, cl) && !cl.pc.Done? && cl'.attempt == cl.attempt && e.Do?
    requires cl'.pc == TruncateAll || cl'.pc == Done(Completed)
    ensures Attempts(es + [e], c, cl')
  {
    FailuresAppend(es, e, c);
    hide LockFailures, Outcomes.Broken;
  }

  lemma DoKeepsAttempts(es: seq<Event>, s: State, c: nat, newId: Id, now: nat)
    requires Inv(s) && Enabled(s, Do(c, newId, now)) && s.clients[c].w.call.CallReset?
    requires Attempts(es, c, s.clients[c])
    ensures var e := Do(c, newId, now); c in Apply(s, e).clients && Attempts(es + [e], c, Apply(s, e).clients[c])
  {
    hide Inv, NextLock, Typed, DoStatement, Attempts;
    ResetStands(s, c);
    ResetDoes(s.db, s.clients[c], newId, now, |s.history|, s.external);
    StatementKeepsAttempts(es, c, s.clients[c], Apply(s, Do(c, newId, now)).clients[c], Do(c, newId, now));
  }

  lemma LockFailKeepsAttempts(es: seq<Event>, c: nat, cl: Client)
    requires Attempts(es, c, cl) && cl.pc == LockTables
    ensures Attempts(es + [LockFail(c)], c, LockFailed(cl))
  {
    FailuresAppend(es, LockFail(c), c);
    hide LockFailures, Outcomes.Broken;
  }

  lemma AbortKeepsAttempts(es: seq<Event>, c: nat, cl: Client)
    requires Attempts(es, c, cl) && (cl.pc == LockTables || cl.pc == TruncateAll)
    ensures Attempts(es + [Abort(c)], c, Aborted(cl))
  {
    FailuresAppend(es, Abort(c), c);
    assert (es + [Abort(c)])[|es|] == Abort(c) && Outcomes.Broken(es + [Abort(c)], c);
    hide LockFailures, Outcomes.Broken;
  }

  lemma AcquireKeepsAttempts(es: seq<Event>, c: nat, cl: Client, l: Lock)
    requires Attempts(es, c, cl) && !cl.pc.Done?
    ensures Attempts(es + [Acquire(c)], c, cl.(held := cl.held + {l}))
  {
    FailuresAppend(es, Acquire(c), c);
    hide LockFailures, Outcomes.Broken;
  }

  lemma QuietKeepsAttempts(es: seq<Event>, s: State, e: Event, c: nat)
    requires Inv(s) && Enabled(s, e) && e.client == c && c in s.clients && s.clients[c].w.call.CallReset? && !e.Do?
    requires Attempts(es, c, s.clients[c])
    ensures c in Apply(s, e).clients && Attempts(es + [e], c, Apply(s, e).clients[c])
  {
    hide Inv, NextLock, Free, Attempts;
    ResetStands(s, c);
    DoneNeedsNothing(s.db, s.clients[c]);
    if e.Acquire? { AcquireKeepsAttempts(es, c, s.clients[c], NextLock(s.db, s.clients[c]).value); }
    else if e.Abort? { AbortKeepsAttempts(es, c, s.clients[c]); }
    else { LockFailKeepsAttempts(es, c, s.clients[c]); }
  }

  lemma ResetBegins(es: seq<Event>, s: State, c: nat, e: Event)
    requires Enabled(s, e) && e.client == c && c !in s.clients && LockFailures(es, c) == 0
    ensures c in Apply(s, e).clients
    ensures Apply(s, e).clients[c].w.call.CallReset? ==> Attempts(es + [e], c, Apply(s, e).clients[c])
  {
    FailuresAppend(es, e, c);
    hide NextLock, Free, LockFailures, Outcomes.Broken, DoStatement;
  }

  /** In any run, a reset that completed has given up on its locks at most twice, and one that answered with an error
      did so exactly three times, or the database failed it. */
  lemma {:induction false} ResetTriesThreeTimes(external: bool, es: seq<Event>, c: nat)
    requires ValidRun(external, es)
    requires c in StateAfter(external, es).clients && StateAfter(external, es).clients[c].w.call.CallReset?
    ensures Attempts(es, c, StateAfter(external, es).clients[c])
  {
    hide Enabled, Apply, Inv, Attempts;
    if es != [] {
      var before := es[..|es| - 1];
      var s, e := LastStep(external, es);
      assert before + [e] == es;
      ResetRetriesAreBounded(external, before, c);
      ClientsStay(s, e);
      if c in s.clients {
        ResetTriesThreeTimes(external, before, c);
        if e.Do? && e.client == c { DoKeepsAttempts(before, s, c, e.newId, e.now); }
        else if e.client == c { QuietKeepsAttempts(before, s, e, c); } else {
          OthersKeepAttempts(before, e, c, s.clients[c]);
        }
      } else {
        ResetBegins(before, s, c, e);
      }
    }
  }

  lemma OthersKeepAttempts(es: seq<Event>, e: Event, c: nat, cl: Client)
    requires Attempts(es, c, cl) && e.client != c
    ensures Attempts(es + [e], c, cl)
  {
    FailuresAppend(es, e, c);
    if Outcomes.Broken(es, c) { Outcomes.BrokenStays(es, e, c); }
    hide LockFailures, Outcomes.Broken;
  }

  /** A lock failure shows in the run. */
  lemma {:induction false} FailuresHurt(es: seq<Event>, c: nat)
    requires LockFailures(es, c) > 0
    ensures Database.Hurt(es, c)
  {
    var last := |es| - 1;
    if es[last] != LockFail(c) {
      FailuresHurt(es[..last], c);
      var i :| 0 <= i < last && (es[..last][i] == Abort(c) || es[..last][i] == LockFail(c));
      assert es[i] == es[..last][i];
    }
  }
}
