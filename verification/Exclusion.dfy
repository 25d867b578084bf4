/** Which locks exclude each other, and what a reset that has its tables keeps out. */
module Exclusion {
  import opened Common
  import opened Bank
  import opened Protocol
  import opened Invariant
  import opened Statements
  import opened Refinement
  import opened Steps
  import opened Replies

  /** In any run, no two clients hold the same row of transfers or accounts, no two one of them has a table to itself
      that the other uses, and no two one of them has locked the key of an account that the other has locked or
      shares. */
  lemma LocksExclude(external: bool, es: seq<Event>, c: nat, d: nat)
    requires ValidRun(external, es) && c != d
    requires c in StateAfter(external, es).clients && d in StateAfter(external, es).clients
    ensures var s := StateAfter(external, es);
            var mine, theirs := s.clients[c].held, s.clients[d].held;
            && (forall t :: TransferRow(t) in mine ==> TransferRow(t) !in theirs)
            && (forall a :: AccountRow(a) in mine ==> AccountRow(a) !in theirs)
            && (forall table :: Exclusive(table) in mine ==> Exclusive(table) !in theirs && Shared(table) !in theirs)
            && (forall a :: AccountKey(a) in mine ==> AccountKey(a) !in theirs && SharedKey(a) !in theirs)
  {
    EveryInterleavingRefinesTheAtomicBank(external, es);
    var s := StateAfter(external, es);
    assert Compatible(s.clients[c].held, s.clients[d].held);
    hide StateAfter, ValidRun, Inv;
    CompatibleLocks(s.clients[c].held, s.clients[d].held);
  }

  lemma CompatibleLocks(mine: set<Lock>, theirs: set<Lock>)
    requires Compatible(mine, theirs)
    ensures forall t :: TransferRow(t) in mine ==> TransferRow(t) !in theirs
    ensures forall a :: AccountRow(a) in mine ==> AccountRow(a) !in theirs
    ensures forall table :: Exclusive(table) in mine ==> Exclusive(table) !in theirs && Shared(table) !in theirs
    ensures forall a :: AccountKey(a) in mine ==> AccountKey(a) !in theirs && SharedKey(a) !in theirs
  {
    forall t | TransferRow(t) in mine ensures TransferRow(t) !in theirs {
      assert Conflict(TransferRow(t), TransferRow(t));
    }
    forall a | AccountRow(a) in mine ensures AccountRow(a) !in theirs {
      assert Conflict(AccountRow(a), AccountRow(a));
    }
    forall table | Exclusive(table) in mine ensures Exclusive(table) !in theirs && Shared(table) !in theirs {
      assert Conflict(Exclusive(table), Exclusive(table)) && Conflict(Exclusive(table), Shared(table));
    }
    forall a | AccountKey(a) in mine ensures AccountKey(a) !in theirs && SharedKey(a) !in theirs {
      assert Conflict(AccountKey(a), AccountKey(a)) && Conflict(AccountKey(a), SharedKey(a));
    }
  }

  /** Nothing else keeps a client from a lock: a table that nobody else has to itself can be shared, a key that nobody
      else has locked can be shared, and a lock on a row, a key or a whole table waits for its like, and for the sharers
      of a key or a table. */
  lemma LocksAreGranted(s: State, c: nat, l: Lock)
    ensures Free(s, c, l) <==>
              forall d :: d in s.clients && d != c ==>
                var held := s.clients[d].held;
                match l
                case Shared(t) => Exclusive(t) !in held
                case Exclusive(t) => Exclusive(t) !in held && Shared(t) !in held
                case TransferRow(t) => TransferRow(t) !in held
                case AccountRow(a) => AccountRow(a) !in held
                case AccountKey(a) => AccountKey(a) !in held && SharedKey(a) !in held
                case SharedKey(a) => AccountKey(a) !in held
  {
    forall d | d in s.clients && d != c
      ensures var held := s.clients[d].held;
              (forall m :: m in held ==> !Conflict(l, m)) <==>
                match l
                case Shared(t) => Exclusive(t) !in held
                case Exclusive(t) => Exclusive(t) !in held && Shared(t) !in held
                case TransferRow(t) => TransferRow(t) !in held
                case AccountRow(a) => AccountRow(a) !in held
                case AccountKey(a) => AccountKey(a) !in held && SharedKey(a) !in held
                case SharedKey(a) => AccountKey(a) !in held
    {
      OneHolder(s.clients[d].held, l);
    }
  }

  lemma OneHolder(held: set<Lock>, l: Lock)
    ensures (forall m :: m in held ==> !Conflict(l, m)) <==>
              match l
              case Shared(t) => Exclusive(t) !in held
              case Exclusive(t) => Exclusive(t) !in held && Shared(t) !in held
              case TransferRow(t) => TransferRow(t) !in held
              case AccountRow(a) => AccountRow(a) !in held
              case AccountKey(a) => AccountKey(a) !in held && SharedKey(a) !in held
              case SharedKey(a) => AccountKey(a) !in held
  {
    if forall m :: m in held ==> !Conflict(l, m) {
      match l {
        case Shared(t) => assert Conflict(l, Exclusive(t));
        case Exclusive(t) => assert Conflict(l, Exclusive(t)) && Conflict(l, Shared(t));
        case TransferRow(t) => assert Conflict(l, TransferRow(t));
        case AccountRow(a) => assert Conflict(l, AccountRow(a));
        case AccountKey(a) => assert Conflict(l, AccountKey(a)) && Conflict(l, SharedKey(a));
        case SharedKey(a) => assert Conflict(l, AccountKey(a));
      }
    }
  }

  // --------------------------------------------------------------------------------------- a reset has the tables

  /** A statement that can run uses a table, unless it is the check of the parameters. */
  lemma StatementsUseTables(db: Db, cl: Client, external: bool) returns (table: Table)
    requires Shape(cl, external) && Typed(cl) && NextLock(db, cl) == None && !cl.pc.Done? && cl.pc != Validate
    ensures Shared(table) in cl.held || Exclusive(table) in cl.held
  {
    if cl.pc == TruncateAll {
      table := Accounts;
      assert RestShape(cl);
    } else if cl.pc == WriteRow || cl.pc == CommitTx {
      table := if cl.w.row.Some? then Transfers else Accounts;
      WritersHold(cl, external);
    } else {
      FirstNeed(db, cl);
      NeedsHeld(db, cl, 0);
      table := Needs(db, cl)[0].table;
    }
    hide Shape, NextLock;
  }

  lemma WritersHold(cl: Client, external: bool)
    requires Shape(cl, external) && (cl.pc == WriteRow || cl.pc == CommitTx)
    ensures if cl.w.row.Some? then Shared(Transfers) in cl.held else Shared(Accounts) in cl.held
  {
    hide CallShape, NewBalance, RowsHeld, NewEntries, Updated;
  }

  lemma FirstNeed(db: Db, cl: Client)
    requires Typed(cl) && !cl.pc.Done? && cl.pc != Validate
    requires cl.pc != TruncateAll && cl.pc != WriteRow && cl.pc != CommitTx
    ensures Needs(db, cl) != [] && (Needs(db, cl)[0].Shared? || Needs(db, cl)[0].Exclusive?)
  {
    hide ReadAt, UpdateAt, VersionMatches, KeyTaken;
  }

  /** While a reset has its tables locked, no other client can run a statement, but to check its parameters. */
  lemma ResetRunsAlone(external: bool, es: seq<Event>, c: nat, d: nat, newId: Id, now: nat)
    requires ValidRun(external, es) && c != d
    requires c in StateAfter(external, es).clients && StateAfter(external, es).clients[c].pc == TruncateAll
    requires d in StateAfter(external, es).clients && Enabled(StateAfter(external, es), Do(d, newId, now))
    ensures StateAfter(external, es).clients[d].pc == Validate
  {
    EveryInterleavingRefinesTheAtomicBank(external, es);
    LocksExclude(external, es, c, d);
    ExternalStays(external, es);
    var s := StateAfter(external, es);
    assert ClientOk(s, s.clients[c]) && ClientOk(s, s.clients[d]);
    hide StateAfter, ValidRun, Inv, Linked;
    assert forall table :: Exclusive(table) in s.clients[c].held by { TablesHeld(s.clients[c], external); }
    hide Shape;
    if s.clients[d].pc != Validate {
      var table := StatementsUseTables(s.db, s.clients[d], external);
    }
  }

  lemma TablesHeld(cl: Client, external: bool)
    requires Shape(cl, external) && cl.pc == TruncateAll
    ensures forall table :: Exclusive(table) in cl.held
  {
    hide CallShape, HeldShape;
  }

  /** Plain reads, INSERTs of entries and accounts, and INSERTs that will find their key taken, never wait for a row:
      they ask for the use of their table, and for nothing else. */
  lemma PlainStatementsAskForTables(db: Db, cl: Client)
    requires || cl.pc.Find? || cl.pc.CountBooked? || cl.pc.ReadAcc? || cl.pc.AddEntry? || cl.pc.Fetch? || cl.pc.OpenAcc?
             || (cl.pc.Insert? && cl.w.call.CallTransfer? && InUse(db, cl.w.call.key))
    ensures NextLock(db, cl).Some? ==> NextLock(db, cl).value.Shared?
  {
    assert cl.pc.Insert? ==> KeyTaken(db, cl.w.call.key);
    hide KeyTaken, InUse;
    if NextLock(db, cl).Some? { FirstMissingIsNeeded(Needs(db, cl), cl.held); }
  }
}
