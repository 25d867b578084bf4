/** What the answers of the services stand for in a run: each was true of the bank at a moment of its call. */
module Outcomes {
  import opened Common
  import opened Bank
  import opened BankLaws
  import opened History
  import opened Protocol
  import opened Invariant
  import opened Refinement
  import opened Steps
  import opened Honesty
  import opened Replies
  import Answers
  import Calls
  import Modes

  // ------------------------------------------------------------------------------------------- moments of a history

  /** The tables after the first m commits bear the answer out. */
  ghost predicate TellsAt(h: seq<Commit>, external: bool, call: Call, result: Result, m: nat)
    requires m <= |h|
  {
    Tells(Replay(h[..m]), external, call, result)
  }

  /** The answer was true after the n-th commit or a later one. */
  ghost predicate TrueSince(h: seq<Commit>, external: bool, call: Call, result: Result, n: nat) {
    exists m: nat :: n <= m <= |h| && TellsAt(h, external, call, result, m)
  }

  ghost predicate SeenAt(h: seq<Commit>, a: Id, acc: Account, m: nat)
    requires m <= |h|
  {
    a in Replay(h[..m]).accounts && Replay(h[..m]).accounts[a] == acc
  }

  /** The account was as it was read after the n-th commit or a later one. */
  ghost predicate SeenSince(h: seq<Commit>, a: Id, acc: Account, n: nat) {
    exists m: nat :: n <= m <= |h| && SeenAt(h, a, acc, m)
  }

  ghost predicate KeyAt(h: seq<Commit>, key: string, m: nat)
    requires m <= |h|
  {
    InUse(Replay(h[..m]), key)
  }

  ghost predicate KeySince(h: seq<Commit>, key: string, n: nat) { exists m: nat :: n <= m <= |h| && KeyAt(h, key, m) }

  ghost predicate RowAt(h: seq<Commit>, t: Id, m: nat)
    requires m <= |h|
  {
    t in Replay(h[..m]).transfers
  }

  ghost predicate RowSince(h: seq<Commit>, t: Id, n: nat) { exists m: nat :: n <= m <= |h| && RowAt(h, t, m) }

  /** The key of the call belongs to a transfer with other parameters. */
  predicate OtherParams(db: Db, call: Call)
    requires call.CallTransfer?
  {
    exists t :: t in db.transfers && db.transfers[t].key == call.key && !IsOf(db, t, call)
  }

  ghost predicate OtherAt(h: seq<Commit>, call: Call, m: nat)
    requires call.CallTransfer? && m <= |h|
  {
    OtherParams(Replay(h[..m]), call)
  }

  ghost predicate OtherSince(h: seq<Commit>, call: Call, n: nat)
    requires call.CallTransfer?
  {
    exists m: nat :: n <= m <= |h| && OtherAt(h, call, m)
  }

  /** The tables were truncated by the n-th commit or a later one. */
  predicate WipedSince(h: seq<Commit>, n: nat) { exists i :: n <= i < |h| && h[i].op.Truncate? }

  // --------------------------------------------------------------------------------------------- what a call keeps

  /** The answer was true at a moment of the call; or it is the error of a Transfer whose row a reset has taken away. */
  ghost predicate Borne(h: seq<Commit>, external: bool, call: Call, result: Result, n: nat) {
    TrueSince(h, external, call, result, n) || (result == Internal && call.CallTransfer? && WipedSince(h, n))
  }

  /** What a Transfer call has found before: the key, its row, the same key with other parameters. */
  ghost predicate Found(h: seq<Commit>, cl: Client) {
    cl.w.call.CallTransfer? ==>
      && (cl.pc.Find? ==> KeySince(h, cl.w.call.key, cl.begun))
      && (cl.w.tid.Some? ==> RowSince(h, cl.w.tid.value, cl.begun))
      && (cl.clashed > 0 ==> OtherSince(h, cl.w.call, cl.begun))
  }

  ghost predicate Answered(h: seq<Commit>, external: bool, cl: Client) {
    Verdict(cl).Some? ==> Borne(h, external, cl.w.call, Verdict(cl).value, cl.begun)
  }

  ghost predicate AllSeen(h: seq<Commit>, cl: Client) {
    forall a :: a in cl.w.snap ==> SeenSince(h, a, cl.w.snap[a], cl.begun)
  }

  ghost predicate Kept(h: seq<Commit>, external: bool, cl: Client) {
    cl.begun <= |h| && Answered(h, external, cl) && AllSeen(h, cl) && Found(h, cl)
  }

  /** The database failed a statement of client c. */
  predicate Broken(es: seq<Event>, c: nat) { exists i :: 0 <= i < |es| && es[i] == Abort(c) }

  predicate Errs(es: seq<Event>, c: nat, cl: Client) { cl.pc == Done(Internal) && Broken(es, c) }

  /** The answer of client c to the call that it made when there were n commits. */
  ghost predicate IsTrue(es: seq<Event>, c: nat, h: seq<Commit>, external: bool, call: Call, result: Result, n: nat) {
    (result == Internal && Broken(es, c)) || Borne(h, external, call, result, n)
  }

  ghost predicate AllKept(es: seq<Event>, s: State) {
    forall c :: c in s.clients ==> Errs(es, c, s.clients[c]) || Kept(s.history, s.external, s.clients[c])
  }

  // ---------------------------------------------------------------------------------------- moments stay, and come

  lemma TrueLater(h: seq<Commit>, h': seq<Commit>, external: bool, call: Call, result: Result, n: nat)
    requires h <= h' && TrueSince(h, external, call, result, n)
    ensures TrueSince(h', external, call, result, n)
  {
    hide Replay, Tells;
    var m: nat :| n <= m <= |h| && TellsAt(h, external, call, result, m);
    assert h'[..m] == h[..m];
    assert TellsAt(h', external, call, result, m);
  }

  lemma TrueNow(h: seq<Commit>, external: bool, call: Call, result: Result, n: nat)
    requires n <= |h| && Tells(Replay(h), external, call, result)
    ensures TrueSince(h, external, call, result, n)
  {
    hide Replay, Tells;
    assert h[..|h|] == h;
    assert TellsAt(h, external, call, result, |h|);
  }

  lemma SeenLater(h: seq<Commit>, h': seq<Commit>, a: Id, acc: Account, n: nat)
    requires h <= h' && SeenSince(h, a, acc, n)
    ensures SeenSince(h', a, acc, n)
  {
    hide Replay;
    var m: nat :| n <= m <= |h| && SeenAt(h, a, acc, m);
    assert h'[..m] == h[..m];
    assert SeenAt(h', a, acc, m);
  }

  lemma SeenNow(h: seq<Commit>, a: Id, n: nat)
    requires n <= |h| && a in Replay(h).accounts
    ensures SeenSince(h, a, Replay(h).accounts[a], n)
  {
    hide Replay;
    assert h[..|h|] == h;
    assert SeenAt(h, a, Replay(h).accounts[a], |h|);
  }

  lemma FoundLater(h: seq<Commit>, h': seq<Commit>, cl: Client)
    requires h <= h' && Found(h, cl)
    ensures Found(h', cl)
  {
    hide Replay, InUse, OtherParams;
    if cl.w.call.CallTransfer? {
      if cl.pc.Find? {
        var m: nat :| cl.begun <= m <= |h| && KeyAt(h, cl.w.call.key, m);
        assert h'[..m] == h[..m];
        assert KeyAt(h', cl.w.call.key, m);
      }
      if cl.w.tid.Some? {
        var m: nat :| cl.begun <= m <= |h| && RowAt(h, cl.w.tid.value, m);
        assert h'[..m] == h[..m];
        assert RowAt(h', cl.w.tid.value, m);
      }
      if cl.clashed > 0 {
        var m: nat :| cl.begun <= m <= |h| && OtherAt(h, cl.w.call, m);
        assert h'[..m] == h[..m];
        assert OtherAt(h', cl.w.call, m);
      }
    }
  }

  lemma KeyNow(h: seq<Commit>, key: string, n: nat)
    requires n <= |h| && InUse(Replay(h), key)
    ensures KeySince(h, key, n)
  {
    hide Replay, InUse;
    assert h[..|h|] == h;
    assert KeyAt(h, key, |h|);
  }

  lemma RowNow(h: seq<Commit>, t: Id, n: nat)
    requires n <= |h| && t in Replay(h).transfers
    ensures RowSince(h, t, n)
  {
    hide Replay;
    assert h[..|h|] == h;
    assert RowAt(h, t, |h|);
  }

  lemma OtherNow(h: seq<Commit>, call: Call, n: nat)
    requires call.CallTransfer? && n <= |h| && OtherParams(Replay(h), call)
    ensures OtherSince(h, call, n)
  {
    hide Replay, OtherParams;
    assert h[..|h|] == h;
    assert OtherAt(h, call, |h|);
  }

  /** An account that was once as it was read bears the answer out at that moment. */
  lemma TrueThen(h: seq<Commit>, external: bool, call: Call, result: Result, a: Id, acc: Account, n: nat)
    requires SeenSince(h, a, acc, n) && AccountTells(call, result, a, acc)
    ensures TrueSince(h, external, call, result, n)
  {
    hide Replay, Tells, AccountTells;
    var m: nat :| n <= m <= |h| && SeenAt(h, a, acc, m);
    AccountIsEnough(Replay(h[..m]), external, call, result, a);
    assert TellsAt(h, external, call, result, m);
  }

  // ------------------------------------------------------------------------------------- what a reset takes away

  /** Only a reset takes rows away, and their keys. */
  lemma RowsStay(db: Db, op: Op, t: Id)
    requires DbInv(db) && Guard(db, op) && !op.Truncate? && t in db.transfers
    ensures t in Exec(db, op).transfers && Exec(db, op).transfers[t].key == db.transfers[t].key
  {
    ExecRows(db, op);
    hide Exec, RowsOk, AccountsOk, EntriesOk, BookingsOk, KeysUnique;
  }

  lemma {:induction false} RowIsWiped(h: seq<Commit>, m: nat, t: Id)
    requires Legal(h) && m <= |h| && RowAt(h, t, m) && t !in Replay(h).transfers
    ensures WipedSince(h, m)
    decreases |h|
  {
    hide DbInv, Guard, Exec, RowsOk;
    assert h[..|h|] == h;
    if m < |h| && Last(h).op.Truncate? {
      assert h[|h| - 1].op.Truncate?;
    } else if m < |h| {
      assert Front(h)[..m] == h[..m];
      LegalHistoryKeepsDbInv(Front(h));
      if t in Replay(Front(h)).transfers { RowsStay(Replay(Front(h)), Last(h).op, t); }
      else {
        RowIsWiped(Front(h), m, t);
        var i :| m <= i < |Front(h)| && Front(h)[i].op.Truncate?;
        assert h[i] == Front(h)[i];
      }
    }
  }

  lemma KeyIsWiped(h: seq<Commit>, m: nat, key: string)
    requires Legal(h) && m <= |h| && KeyAt(h, key, m) && !InUse(Replay(h), key)
    ensures WipedSince(h, m)
  {
    var db := Replay(h[..m]);
    var t :| t in db.transfers && db.transfers[t].key == key;
    KeyWipedWith(h, m, key, t);
  }

  lemma {:induction false} KeyWipedWith(h: seq<Commit>, m: nat, key: string, t: Id)
    requires Legal(h) && m <= |h| && RowAt(h, t, m) && Replay(h[..m]).transfers[t].key == key && !InUse(Replay(h), key)
    ensures WipedSince(h, m)
    decreases |h|
  {
    hide DbInv, Guard, Exec, RowsOk;
    assert h[..|h|] == h;
    if m < |h| && Last(h).op.Truncate? {
      assert h[|h| - 1].op.Truncate?;
    } else if m < |h| {
      assert Front(h)[..m] == h[..m];
      LegalHistoryKeepsDbInv(Front(h));
      if InUse(Replay(Front(h)), key) {
        var u :| u in Replay(Front(h)).transfers && Replay(Front(h)).transfers[u].key == key;
        RowsStay(Replay(Front(h)), Last(h).op, u);
      } else {
        KeyWipedWith(Front(h), m, key, t);
        var i :| m <= i < |Front(h)| && Front(h)[i].op.Truncate?;
        assert h[i] == Front(h)[i];
      }
    }
  }

  // -------------------------------------------------------------------------------------------- statement by statement

  /** What a Transfer call has found after a statement, it had found before, or the tables show it. */
  ghost predicate Finds(db: Db, cl: Client, out: Out) {
    cl.w.call.CallTransfer? ==>
      && (out.cl.pc.Find? ==> InUse(out.db, cl.w.call.key))
      && (out.cl.w.tid.Some? ==> out.cl.w.tid == cl.w.tid || out.cl.w.tid.value in out.db.transfers)
      && (out.cl.clashed > 0 ==> cl.clashed > 0 || OtherParams(out.db, cl.w.call))
  }

  lemma KeyFinds(db: Db, cl: Client, newId: Id, now: nat)
    requires Typed(cl) && cl.w.call.CallTransfer?
    ensures Finds(db, cl, DoValidate(db, cl)) && Finds(db, cl, DoInsert(db, cl, newId, now))
    ensures Finds(db, cl, DoFind(db, cl))
  {
    hide ParamsValid, Continues;
    assert KeyTaken(db, cl.w.call.key) <==> InUse(db, cl.w.call.key);
    hide KeyTaken, InUse;
    if KeyTaken(db, cl.w.call.key) {
      var t := ByKey(db, cl.w.call.key);
      if !RowIs(db, t, cl.w.call.from, cl.w.call.to, cl.w.call.amount) { assert !IsOf(db, t, cl.w.call); }
    }
    hide ByKey, RowIs, OtherParams;
  }

  /** Past its INSERT a call finds nothing new. */
  predicate FindsNothing(cl: Client, out: Out) {
    && !out.cl.pc.Find? && (out.cl.w.tid == cl.w.tid || out.cl.w.tid == None) && out.cl.clashed == cl.clashed
  }

  lemma RowFindsNothing(db: Db, cl: Client, clock: nat, external: bool)
    requires cl.w.tid.Some?
    ensures cl.pc.LockRow? ==> FindsNothing(cl, DoLockRow(db, cl, clock, external))
    ensures FindsNothing(cl, DoCountBooked(db, cl, external))
  {
    hide Ledger.Select, Continues, SuccessOf;
  }

  lemma AccountsFindNothing(db: Db, cl: Client, n: nat)
    ensures FindsNothing(cl, DoReadAcc(db, cl, n)) && FindsNothing(cl, DoLockAcc(db, cl, n))
    ensures cl.pc == UpdateAcc(n) ==> FindsNothing(cl, DoUpdateAcc(db, cl, n))
  {
    hide NewBalance, VersionMatches, ReadAt, UpdateAt, Continues;
  }

  lemma OthersFindNothing(db: Db, cl: Client, newId: Id, now: nat, clock: nat, external: bool)
    requires Typed(cl) && !Answers.BeforeAccounts(cl.pc) && !cl.pc.Done?
    requires !cl.pc.ReadAcc? && !cl.pc.LockAcc? && !cl.pc.UpdateAcc?
    ensures FindsNothing(cl, DoStatement(db, cl, newId, now, clock, external))
  {
    hide DoReadAcc, DoLockAcc, DoUpdateAcc, DoValidate, DoInsert, DoFind, DoLockRow, DoCountBooked;
    hide NewEntry, RowWriteOf, Publish, CommittedOp, Continues;
  }

  lemma StatementFinds(db: Db, cl: Client, newId: Id, now: nat, clock: nat, external: bool)
    requires Typed(cl) && !cl.pc.Done?
    ensures Finds(db, cl, DoStatement(db, cl, newId, now, clock, external))
  {
    hide DoReadAcc, DoLockAcc, DoUpdateAcc, DoValidate, DoInsert, DoFind, DoLockRow, DoCountBooked, InUse, OtherParams;
    if cl.pc.ReadAcc? || cl.pc.LockAcc? || cl.pc.UpdateAcc? {
      AccountsFindNothing(db, cl, cl.pc.n);
    } else if cl.pc.LockRow? || cl.pc.CountBooked? {
      RowFindsNothing(db, cl, clock, external);
    } else if Answers.BeforeAccounts(cl.pc) {
      hide Finds;
      KeyFinds(db, cl, newId, now);
    } else {
      hide DoStatement;
      OthersFindNothing(db, cl, newId, now, clock, external);
    }
  }

  // ----------------------------------------------------------------------------------------------- every step

  /** A statement of a call, on the tables that history h has made, leaves those of h'. */
  ghost predicate Statement(h: seq<Commit>, h': seq<Commit>, external: bool, cl: Client, out: Out) {
    && h <= h' && Legal(h) && out.db == Replay(h') && out.cl.begun == cl.begun && out.cl.w.call == cl.w.call
    && Honest(Replay(h), external, cl, out) && Answers.SnapMove(Replay(h), cl, out) && Finds(Replay(h), cl, out)
  }

  lemma AnswerKept(h: seq<Commit>, h': seq<Commit>, external: bool, cl: Client, out: Out)
    requires Statement(h, h', external, cl, out) && Kept(h, external, cl)
    ensures Answered(h', external, out.cl)
  {
    hide Legal, Replay, Tells, TrueSince, SeenSince, Found, Finds, Answers.SnapMove, AccountTells, InUse, Missing;
    var call, n, verdict := cl.w.call, cl.begun, Verdict(out.cl);
    if verdict.Some? {
      if verdict == Verdict(cl) {
        BorneLater(h, h', external, call, verdict.value, n);
      } else if Tells(out.db, external, call, verdict.value) {
        TrueNow(h', external, call, verdict.value, n);
      } else if KnownAccountTells(cl, verdict.value) {
        var a :| a in cl.w.snap && AccountTells(call, verdict.value, a, cl.w.snap[a]);
        TrueThen(h, external, call, verdict.value, a, cl.w.snap[a], n);
        TrueLater(h, h', external, call, verdict.value, n);
      } else {
        MissingIsWiped(h, h', cl);
      }
    }
  }

  lemma BorneLater(h: seq<Commit>, h': seq<Commit>, external: bool, call: Call, result: Result, n: nat)
    requires h <= h' && Borne(h, external, call, result, n)
    ensures Borne(h', external, call, result, n)
  {
    hide TrueSince;
    if TrueSince(h, external, call, result, n) { TrueLater(h, h', external, call, result, n); }
    else {
      var i :| n <= i < |h| && h[i].op.Truncate?;
      assert h'[i] == h[i];
    }
  }

  lemma MissingIsWiped(h: seq<Commit>, h': seq<Commit>, cl: Client)
    requires Legal(h) && h <= h' && Found(h, cl) && Missing(Replay(h), cl)
    ensures cl.w.call.CallTransfer? && WipedSince(h', cl.begun)
  {
    hide Legal, Replay, OtherSince;
    if cl.pc.Find? {
      var m: nat :| cl.begun <= m <= |h| && KeyAt(h, cl.w.call.key, m);
      KeyIsWiped(h, m, cl.w.call.key);
      hide InUse;
      var i :| m <= i < |h| && h[i].op.Truncate?;
      assert h'[i] == h[i];
    } else {
      var m: nat :| cl.begun <= m <= |h| && RowAt(h, cl.w.tid.value, m);
      RowIsWiped(h, m, cl.w.tid.value);
      var i :| m <= i < |h| && h[i].op.Truncate?;
      assert h'[i] == h[i];
    }
  }

  lemma SeenKept(h: seq<Commit>, h': seq<Commit>, external: bool, cl: Client, out: Out)
    requires Statement(h, h', external, cl, out) && cl.begun <= |h| && AllSeen(h, cl)
    ensures AllSeen(h', out.cl)
  {
    hide Legal, Replay, Honest, Finds, SeenSince;
    forall a | a in out.cl.w.snap ensures SeenSince(h', a, out.cl.w.snap[a], out.cl.begun) {
      if !(a in cl.w.snap && out.cl.w.snap[a] == cl.w.snap[a]) { SeenNow(h, a, cl.begun); }
      SeenLater(h, h', a, out.cl.w.snap[a], cl.begun);
    }
  }

  lemma FoundKept(h: seq<Commit>, h': seq<Commit>, external: bool, cl: Client, out: Out)
    requires Statement(h, h', external, cl, out) && cl.begun <= |h| && Found(h, cl)
    ensures Found(h', out.cl)
  {
    hide Legal, Replay, Honest, Answers.SnapMove, InUse, OtherParams, KeySince, RowSince, OtherSince;
    FoundLater(h, h', cl);
    if cl.w.call.CallTransfer? {
      if out.cl.pc.Find? { KeyNow(h', cl.w.call.key, cl.begun); }
      if out.cl.w.tid.Some? && out.cl.w.tid != cl.w.tid { RowNow(h', out.cl.w.tid.value, cl.begun); }
      if out.cl.clashed > 0 && cl.clashed == 0 { OtherNow(h', cl.w.call, cl.begun); }
    }
  }

  lemma StatementKeeps(h: seq<Commit>, h': seq<Commit>, external: bool, cl: Client, out: Out)
    requires Statement(h, h', external, cl, out) && Kept(h, external, cl)
    ensures Kept(h', external, out.cl)
  {
    hide Answered, AllSeen, Found, Legal, Replay, Honest, Finds, Answers.SnapMove;
    AnswerKept(h, h', external, cl, out);
    SeenKept(h, h', external, cl, out);
    FoundKept(h, h', external, cl, out);
  }

  /** What the state of a run owes to its history. */
  lemma StatementOf(s: State, c: nat, newId: Id, now: nat)
    requires Inv(s) && Enabled(s, Do(c, newId, now)) && (!s.external ==> Modes.NoneAwaits(s.db))
    ensures var s', cl := Apply(s, Do(c, newId, now)), s.clients[c];
            var out := DoStatement(s.db, cl, newId, now, |s.history|, s.external);
            s'.clients[c] == out.cl && s'.external == s.external
            && Statement(s.history, s'.history, s.external, cl, out)
  {
    var cl, e := s.clients[c], Do(c, newId, now);
    var out := DoStatement(s.db, cl, newId, now, |s.history|, s.external);
    assert ClientOk(s, cl);
    StepKeepsInv(s, e);
    StepCommits(s, e);
    RefinesOf(s);
    RefinesOf(Apply(s, e));
    InvRows(s.db);
    Answers.CommitOfNothing(s, c);
    hide Inv, DoStatement, Shape, Linked, NextLock, Typed, Honest, Finds, Answers.SnapMove, DbInv, Legal, Replay, OpOf;
    hide Modes.NoneAwaits, RowsOk, Publish, CommittedOp, StepIs;
    StatementHonest(s.db, cl, newId, now, |s.history|, s.external);
    Answers.StatementSnap(s.db, cl, newId, now, |s.history|, s.external);
    StatementFinds(s.db, cl, newId, now, |s.history|, s.external);
    CommitsAppend(s, e);
  }

  lemma RefinesOf(s: State)
    requires Inv(s)
    ensures Legal(s.history) && s.db == Replay(s.history)
  {
  }

  lemma DoKeeps(s: State, c: nat, newId: Id, now: nat)
    requires Inv(s) && Enabled(s, Do(c, newId, now)) && (!s.external ==> Modes.NoneAwaits(s.db))
    requires Kept(s.history, s.external, s.clients[c])
    ensures var s' := Apply(s, Do(c, newId, now)); c in s'.clients && Kept(s'.history, s'.external, s'.clients[c])
  {
    var out := DoStatement(s.db, s.clients[c], newId, now, |s.history|, s.external);
    StatementOf(s, c, newId, now);
    hide Inv, Kept, Statement, DoStatement, NextLock, Typed, Modes.NoneAwaits;
    StatementKeeps(s.history, Apply(s, Do(c, newId, now)).history, s.external, s.clients[c], out);
  }

  lemma KeptLater(h: seq<Commit>, h': seq<Commit>, external: bool, cl: Client)
    requires h <= h' && Kept(h, external, cl)
    ensures Kept(h', external, cl)
  {
    hide Found, Borne, SeenSince, Verdict;
    FoundLater(h, h', cl);
    if Verdict(cl).Some? { BorneLater(h, h', external, cl.w.call, Verdict(cl).value, cl.begun); }
    forall a | a in cl.w.snap ensures SeenSince(h', a, cl.w.snap[a], cl.begun) {
      SeenLater(h, h', a, cl.w.snap[a], cl.begun);
    }
  }

  lemma BeginKeeps(h: seq<Commit>, external: bool, call: Call)
    ensures Kept(h, external, StartOf(call, |h|))
  {
  }

  lemma AcquireKeeps(h: seq<Commit>, external: bool, cl: Client, l: Lock)
    requires Kept(h, external, cl)
    ensures Kept(h, external, cl.(held := cl.held + {l}))
  {
    hide Borne, SeenSince, KeySince, RowSince, OtherSince;
  }

  /** A failure ends in an error; but nobody hears of a FAILED mark that was lost. */
  lemma AbortKeeps(h: seq<Commit>, external: bool, cl: Client)
    requires Kept(h, external, cl) && !cl.pc.Done?
    ensures Aborted(cl).pc == Done(Internal) || Kept(h, external, Aborted(cl))
  {
    hide Borne, SeenSince, KeySince, RowSince, OtherSince;
  }

  lemma LockFailKeeps(h: seq<Commit>, external: bool, cl: Client)
    requires Kept(h, external, cl) && cl.pc == LockTables && cl.w.call.CallReset?
    ensures Kept(h, external, LockFailed(cl))
  {
    hide SeenSince, TrueSince, Tells;
    if LockFailed(cl).pc.Done? { TrueNow(h, external, cl.w.call, Internal,
                                         cl.begun) by { ResetErrs(Replay(h), external); } }
  }

  lemma ResetErrs(db: Db, external: bool)
    ensures Tells(db, external, CallReset, Internal)
  {
  }

  /** The client that takes a step. */
  lemma StepperKeeps(es: seq<Event>, s: State, e: Event)
    requires Inv(s) && Enabled(s, e) && AllKept(es, s) && (!s.external ==> Modes.NoneAwaits(s.db))
    ensures var s' := Apply(s, e);
            e.client in s'.clients
            && (Errs(es + [e], e.client, s'.clients[e.client])
                || Kept(s'.history, s'.external, s'.clients[e.client]))
  {
    hide Inv, Modes.NoneAwaits, NextLock, Free, Typed, Kept, DoStatement;
    match e {
      case Begin(_, call) => BeginKeeps(s.history, s.external, call);
      case Acquire(c) =>
        NotErring(es, s, c);
        AcquireKeeps(s.history, s.external, s.clients[c], NextLock(s.db, s.clients[c]).value);
      case Do(c, newId, now) => DoKeeps(s, c, newId, now);
      case Abort(c) =>
        assert (es + [e])[|es|] == Abort(c);
        AbortKeeps(s.history, s.external, s.clients[c]);
      case LockFail(c) =>
        Calls.ResetLocks(s, c);
        LockFailKeeps(s.history, s.external, s.clients[c]);
    }
  }

  lemma NotErring(es: seq<Event>, s: State, c: nat)
    requires c in s.clients && NextLock(s.db, s.clients[c]).Some?
    ensures !Errs(es, c, s.clients[c])
  {
  }

  lemma StepKeeps(es: seq<Event>, s: State, e: Event)
    requires Inv(s) && Enabled(s, e) && AllKept(es, s) && (!s.external ==> Modes.NoneAwaits(s.db))
    ensures AllKept(es + [e], Apply(s, e))
  {
    var s' := Apply(s, e);
    ClientsStay(s, e);
    CommitsAppend(s, e);
    Answers.ExternalSame(s, e);
    StepperKeeps(es, s, e);
    hide Inv, Enabled, Apply, Kept, Modes.NoneAwaits;
    forall d | d in s'.clients
      ensures Errs(es + [e], d, s'.clients[d]) || Kept(s'.history, s'.external, s'.clients[d])
    {
      if d != e.client {
        if Errs(es, d, s.clients[d]) { BrokenStays(es, e, d); }
        else { KeptLater(s.history, s'.history, s.external, s.clients[d]); }
      }
    }
  }

  lemma BrokenStays(es: seq<Event>, e: Event, c: nat)
    requires Broken(es, c)
    ensures Broken(es + [e], c)
  {
    var i :| 0 <= i < |es| && es[i] == Abort(c);
    assert (es + [e])[i] == Abort(c);
  }

  lemma {:induction false} AllKeptAlways(external: bool, es: seq<Event>)
    requires ValidRun(external, es)
    ensures AllKept(es, StateAfter(external, es))
  {
    hide Enabled, Apply, Inv, Kept, Errs, Modes.NoneAwaits;
    if es != [] {
      var before := es[..|es| - 1];
      var s, e := LastStep(external, es);
      AllKeptAlways(external, before);
      ExternalStays(external, before);
      if !external { Modes.InternalBookingsSettle(before); }
      StepKeeps(before, s, e);
      assert before + [e] == es;
    }
  }

  /** In any run, whatever a call answered was true of the bank at a moment between its beginning and its end: that a
      transfer is SETTLED, FAILED or booked, is not there, or has no entries; that an account is missing, not ACTIVE,
      spent or full. Where the bank settles its transfers itself, nobody is told PENDING. Errors come of the database
      failing the call, of a balance that would overflow, of a transfer between accounts that are not there, or of one
      that a reset has taken away meanwhile, and of nothing else. A Transfer that found its key with other parameters,
      did so at a moment of the call. */
  lemma AnswersAreTrue(external: bool, es: seq<Event>, c: nat)
    requires ValidRun(external, es) && c in StateAfter(external, es).clients
    requires StateAfter(external, es).clients[c].pc.Done?
    ensures var s := StateAfter(external, es);
            var cl := s.clients[c];
            && IsTrue(es, c, s.history, external, cl.w.call, cl.pc.result, cl.begun)
            && (cl.w.call.CallTransfer? && cl.clashed > 0 ==>
                  Errs(es, c, cl) || OtherSince(s.history, cl.w.call, cl.begun))
  {
    AllKeptAlways(external, es);
    ExternalStays(external, es);
    hide StateAfter, ValidRun, Borne, OtherSince, KeySince, RowSince, Broken;
    var s := StateAfter(external, es);
    assert Errs(es, c, s.clients[c]) || Kept(s.history, s.external, s.clients[c]);
  }

  /** A Transfer without a key, from an account to itself, or of nothing, is turned down at once, whatever happens. */
  predicate TurnedDown(cl: Client) {
    cl.w.call.CallTransfer? && (cl.w.call.key == "" || cl.w.call.from == cl.w.call.to || cl.w.call.amount <= 0) ==>
      cl.pc == Validate || cl.pc == Done(Invalid(false))
  }

  lemma StepTurnsDown(s: State, e: Event)
    requires Enabled(s, e) && (e.client in s.clients ==> TurnedDown(s.clients[e.client]))
    ensures e.client in Apply(s, e).clients && TurnedDown(Apply(s, e).clients[e.client])
  {
    if e.Do? { DoTurnsDown(s, e); } else { hide NextLock, Free; }
    hide Enabled, Apply;
  }

  lemma DoTurnsDown(s: State, e: Event)
    requires Enabled(s, e) && e.Do? && TurnedDown(s.clients[e.client])
    ensures e.client in Apply(s, e).clients && TurnedDown(Apply(s, e).clients[e.client])
  {
    hide NextLock, Typed;
    var cl := s.clients[e.client];
    if cl.pc == Validate {
      hide DoInsert, DoFind, DoLockRow, DoCountBooked, DoReadAcc, DoLockAcc, DoUpdateAcc, DoCommit, Continues;
    } else {
      hide DoStatement;
    }
  }

  lemma {:induction false} BadCallsAreTurnedDown(external: bool, es: seq<Event>, c: nat)
    requires ValidRun(external, es) && c in StateAfter(external, es).clients
    ensures TurnedDown(StateAfter(external, es).clients[c])
  {
    hide Enabled, Apply, Inv, TurnedDown;
    if es != [] {
      var s, e := LastStep(external, es);
      ClientsStay(s, e);
      if c in s.clients { BadCallsAreTurnedDown(external, es[..|es| - 1], c); }
      if e.client == c { StepTurnsDown(s, e); }
    }
  }

  /** A call that is about to mark its transfer FAILED is told so in the end, even if the database fails the mark. */
  lemma {:induction false} RefusalsAreFinal(external: bool, es: seq<Event>, es': seq<Event>, c: nat)
    requires ValidRun(external, es') && es <= es'
    requires c in StateAfter(external, es).clients && StateAfter(external, es).clients[c].pc == MarkFail
    ensures c in StateAfter(external, es').clients
    ensures var pc := StateAfter(external, es').clients[c].pc; pc == MarkFail || pc == Done(Invalid(true))
    decreases |es'|
  {
    hide Enabled, Apply, Inv;
    if |es| == |es'| {
      assert es == es';
    } else {
      var s, e := LastStep(external, es');
      RefusalsAreFinal(external, es, es'[..|es'| - 1], c);
      ClientsStay(s, e);
      if e.client == c { MarkStep(s, e); }
    }
  }

  lemma MarkStep(s: State, e: Event)
    requires Enabled(s, e) && e.client in s.clients
    requires s.clients[e.client].pc == MarkFail || s.clients[e.client].pc == Done(Invalid(true))
    ensures e.client in Apply(s, e).clients
    ensures var pc := Apply(s, e).clients[e.client].pc; pc == MarkFail || pc == Done(Invalid(true))
  {
    hide NextLock, Free, DoInsert, DoFind, DoLockRow;
    hide DoCountBooked, DoReadAcc, DoLockAcc, DoUpdateAcc, DoCommit, Continues;
  }
}
