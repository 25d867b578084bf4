/** The append-only log of entries (internal/ledger/ledger.go). */
module Ledger {
  import opened Common

  datatype EntryType = Credit | Debit

  datatype Entry = Entry(account: Id, typ: EntryType, amount: int, balanceAfter: int, transfer: Option<Id>)

  /** What a query on the entries table selects by. */
  datatype Selector = OfAccount(id: Id) | OfTransfer(id: Id)

  predicate Picks(sel: Selector, e: Entry) {
    match sel
    case OfAccount(a) => e.account == a
    case OfTransfer(t) => e.transfer == Some(t)
  }

  /** The selected entries in append order. */
  function Select(es: seq<Entry>, sel: Selector): (r: seq<Entry>) {
    if es == [] then []
    else
      var last := es[|es| - 1];
      Select(es[..|es| - 1], sel) + (if Picks(sel, last) then [last] else [])
  }

  /** CASE WHEN type = 'CREDIT' THEN amount_cents ELSE -amount_cents END. */
  function Signed(e: Entry): int {
    if e.typ.Credit? then e.amount else -e.amount
  }

  /** Credits minus debits. */
  function Net(es: seq<Entry>): int {
    if es == [] then 0 else Net(es[..|es| - 1]) + Signed(es[|es| - 1])
  }

  /** Every entry records the signed sum of the log up to and including itself. */
  ghost predicate Running(es: seq<Entry>) {
    forall k :: 0 <= k < |es| ==> es[k].balanceAfter == Net(es[..k + 1])
  }

  lemma SelectAppend(es: seq<Entry>, e: Entry, sel: Selector)
    ensures Select(es + [e], sel) == Select(es, sel) + (if Picks(sel, e) then [e] else [])
  {
    assert (es + [e])[..|es|] == es;
  }

  lemma {:induction false} SelectedComesFromLog(es: seq<Entry>, sel: Selector)
    ensures forall e :: e in Select(es, sel) <==> e in es && Picks(sel, e)
  {
    if es != [] {
      SelectedComesFromLog(es[..|es| - 1], sel);
      assert es == es[..|es| - 1] + [es[|es| - 1]];
    }
  }

  lemma {:induction false} NonePicked(es: seq<Entry>, sel: Selector)
    requires forall i :: 0 <= i < |es| ==> !Picks(sel, es[i])
    ensures Select(es, sel) == []
  {
    if es != [] {
      NonePicked(es[..|es| - 1], sel);
    }
  }

  lemma NetAppend(es: seq<Entry>, e: Entry)
    ensures Net(es + [e]) == Net(es) + Signed(e)
  {
    assert (es + [e])[..|es|] == es;
  }

  /** Appending an entry that states the new signed sum keeps the log running. */
  lemma RunningAppend(es: seq<Entry>, e: Entry)
    requires Running(es) && e.balanceAfter == Net(es) + Signed(e)
    ensures Running(es + [e])
  {
    var log := es + [e];
    NetAppend(es, e);
    forall k | 0 <= k < |log|
      ensures log[k].balanceAfter == Net(log[..k + 1])
    {
      if k < |es| {
        assert log[..k + 1] == es[..k + 1];
      } else {
        assert log[..k + 1] == log;
      }
    }
  }
}
