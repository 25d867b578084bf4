/** The settlement backlog, page by page (internal/transfer/transfer.go): a fixed snapshot read through LIMIT and
    OFFSET, one row more than asked for telling whether there is a next page. */
module Backlog {
  import opened Common
  import opened Bank
  import Stats

  /** ORDER BY created_at ASC, id ASC. */
  predicate Before(db: Db, t: Id, u: Id)
    requires t in db.transfers && u in db.transfers
  {
    var a, b := db.transfers[t].createdAt, db.transfers[u].createdAt;
    a < b || (a == b && t < u)
  }

  /** WHERE status = $1, and for PENDING also booked. */
  function Matching(db: Db, status: TransferStatus): (ts: set<Id>)
    ensures ts <= db.transfers.Keys
  {
    set t | t in db.transfers && db.transfers[t].status == status && (status == Pending ==> Booked(db, t))
  }

  predicate IsFirst(db: Db, ts: set<Id>, t: Id)
    requires ts <= db.transfers.Keys
  {
    t in ts && forall u :: u in ts && u != t ==> Before(db, t, u)
  }

  lemma {:induction false} FirstExists(db: Db, ts: set<Id>)
    requires ts != {} && ts <= db.transfers.Keys
    ensures exists t :: IsFirst(db, ts, t)
  {
    var t :| t in ts;
    if ts == {t} {
      assert IsFirst(db, ts, t);
    } else {
      FirstExists(db, ts - {t});
      var u :| IsFirst(db, ts - {t}, u);
      var first := if Before(db, u, t) then u else t;
      forall v | v in ts && v != first ensures Before(db, first, v) {
        if v != t && v != u { assert v in ts - {t} && Before(db, u, v); }
      }
      assert IsFirst(db, ts, first);
    }
  }

  /** The rows of a query in its order. */
  ghost function Listing(db: Db, ts: set<Id>): (list: seq<Id>)
    requires ts <= db.transfers.Keys
    ensures |list| == |ts|
  {
    if ts == {} then []
    else
      FirstExists(db, ts);
      var t :| IsFirst(db, ts, t);
      [t] + Listing(db, ts - {t})
  }

  /** Exactly the rows of ts, each once, in order. */
  ghost predicate Lists(db: Db, ts: set<Id>, list: seq<Id>)
    requires ts <= db.transfers.Keys
  {
    && (forall t :: t in list <==> t in ts)
    && (forall i, j :: 0 <= i < j < |list| ==> list[i] in ts && list[j] in ts && Before(db, list[i], list[j]))
  }

  lemma {:induction false} ListingLists(db: Db, ts: set<Id>)
    requires ts <= db.transfers.Keys
    ensures Lists(db, ts, Listing(db, ts))
  {
    if ts != {} {
      var list := Listing(db, ts);
      var t := list[0];
      assert IsFirst(db, ts, t) && list[1..] == Listing(db, ts - {t});
      ListingLists(db, ts - {t});
      forall i, j | 0 <= i < j < |list| ensures list[i] in ts && list[j] in ts && Before(db, list[i], list[j]) {
        assert list[j] == list[1..][j - 1];
        if i > 0 { assert list[i] == list[1..][i - 1]; }
      }
      forall u ensures u in list <==> u in ts {
        assert list == [t] + list[1..];
      }
    }
  }

  lemma HeadIsFirst(db: Db, ts: set<Id>, list: seq<Id>)
    requires ts <= db.transfers.Keys && Lists(db, ts, list) && list != []
    ensures IsFirst(db, ts, list[0])
  {
    assert list[0] in list;
    forall u | u in ts && u != list[0] ensures Before(db, list[0], u) {
      assert u in list;
      var i :| 0 <= i < |list| && list[i] == u;
    }
  }

  lemma TailLists(db: Db, ts: set<Id>, list: seq<Id>)
    requires ts <= db.transfers.Keys && Lists(db, ts, list) && list != []
    ensures Lists(db, ts - {list[0]}, list[1..])
  {
    var rest := list[1..];
    forall i | 0 <= i < |rest| ensures rest[i] in ts - {list[0]} {
      assert rest[i] == list[i + 1] && list[i + 1] in list && Before(db, list[0], list[i + 1]);
    }
    forall u | u in ts - {list[0]} ensures u in rest {
      assert u in list && list == [list[0]] + rest;
    }
  }

  /** There is only one such list. */
  lemma {:induction false} ListingIsUnique(db: Db, ts: set<Id>, list: seq<Id>)
    requires ts <= db.transfers.Keys && Lists(db, ts, list)
    ensures list == Listing(db, ts)
    decreases |list|
  {
    if list == [] {
      assert forall t :: t in ts ==> t in list;
      assert ts == {};
    } else {
      assert list[0] in list && list[0] in ts;
      HeadIsFirst(db, ts, list);
      TailLists(db, ts, list);
      ListingIsUnique(db, ts - {list[0]}, list[1..]);
      ListingStarts(db, ts, list[0]);
    }
  }

  lemma ListingStarts(db: Db, ts: set<Id>, t: Id)
    requires ts <= db.transfers.Keys && IsFirst(db, ts, t)
    ensures Listing(db, ts) == [t] + Listing(db, ts - {t})
  {
    var u := Listing(db, ts)[0];
    assert IsFirst(db, ts, u) && Listing(db, ts) == [u] + Listing(db, ts - {u});
    assert u == t || Before(db, u, t);
  }

  // ------------------------------------------------------------------------------------- the order, written out

  /** The rows come by creation time, and by identifier where that is the same. */
  predicate OldestFirst(db: Db, rows: seq<Id>) {
    forall i, j :: 0 <= i < j < |rows| ==>
      && rows[i] in db.transfers && rows[j] in db.transfers
      && var a, b := db.transfers[rows[i]].createdAt, db.transfers[rows[j]].createdAt;
         a < b || (a == b && rows[i] < rows[j])
  }

  /** A transfer that a settlement can be asked for with this status: a PENDING one has an entry in the log. */
  predicate Qualifies(db: Db, status: TransferStatus, t: Id) {
    && t in db.transfers && db.transfers[t].status == status
    && (status == Pending ==> HasEntries(db, t))
  }

  /** The transfers with this status that come before t. */
  function Ahead(db: Db, status: TransferStatus, t: Id): set<Id>
    requires t in db.transfers
  {
    set u | u in db.transfers && Qualifies(db, status, u)
            && (db.transfers[u].createdAt < db.transfers[t].createdAt
                || (db.transfers[u].createdAt == db.transfers[t].createdAt && u < t))
  }

  /** The page that starts after so many transfers: the k-th row of it has offset + k qualifying ones ahead. */
  predicate IsPage(db: Db, status: TransferStatus, offset: nat, page: seq<Id>) {
    OldestFirst(db, page)
    && forall k :: 0 <= k < |page| ==>
         Qualifies(db, status, page[k]) && |Ahead(db, status, page[k])| == offset + k
  }

  lemma MatchingQualifies(db: Db, status: TransferStatus)
    ensures forall t :: t in Matching(db, status) <==> Qualifies(db, status, t)
  {
    forall t ensures t in Matching(db, status) <==> Qualifies(db, status, t) {
      BookedHasEntries(db, t);
    }
  }

  /** How many transfers qualify. */
  function Total(db: Db, status: TransferStatus): nat {
    |set t | t in db.transfers && Qualifies(db, status, t)|
  }

  lemma MatchingTotal(db: Db, status: TransferStatus)
    ensures Total(db, status) == |Matching(db, status)|
  {
    MatchingQualifies(db, status);
    hide Qualifies, Matching;
    assert (set t | t in db.transfers && Qualifies(db, status, t)) == Matching(db, status);
  }

  /** A list of different elements has as many as it is long. */
  lemma {:induction false} DistinctCount(list: seq<Id>, ts: set<Id>)
    requires forall i, j :: 0 <= i < j < |list| ==> list[i] != list[j]
    requires forall t :: t in ts <==> t in list
    ensures |ts| == |list|
  {
    if list != [] {
      var last := list[|list| - 1];
      forall t ensures t in ts - {last} <==> t in list[..|list| - 1] {
        assert list == list[..|list| - 1] + [last];
      }
      DistinctCount(list[..|list| - 1], ts - {last});
    }
  }

  lemma ListRanks(db: Db, status: TransferStatus, list: seq<Id>, k: nat)
    requires Lists(db, Matching(db, status), list) && k < |list|
    ensures list[k] in db.transfers && |Ahead(db, status, list[k])| == k
  {
    assert list[k] in list;
    MatchingQualifies(db, status);
    hide Booked, Matching, Qualifies;
    var ahead := Ahead(db, status, list[k]);
    forall u ensures u in ahead <==> u in list[..k] {
      if u in ahead {
        assert u in list;
        var i :| 0 <= i < |list| && list[i] == u;
        assert i < k;
        assert list[..k][i] == u;
      }
      if u in list[..k] {
        var i :| 0 <= i < k && list[i] == u;
        assert list[i] in list;
      }
    }
    DistinctCount(list[..k], ahead);
  }

  /** Every stretch of the list is in order, and its rows have the ranks they have in the list. */
  lemma StretchIsPage(db: Db, status: TransferStatus, list: seq<Id>, from: nat, to: nat)
    requires Lists(db, Matching(db, status), list) && from <= to <= |list|
    ensures IsPage(db, status, from, list[from..to])
  {
    var page := list[from..to];
    MatchingQualifies(db, status);
    hide Booked, Matching, Qualifies, Ahead;
    forall k | 0 <= k < |page|
      ensures page[k] in db.transfers && Qualifies(db, status, page[k])
              && |Ahead(db, status, page[k])| == from + k
    {
      assert list[from + k] in list;
      ListRanks(db, status, list, from + k);
    }
  }

  // ------------------------------------------------------------------------------------------------------- pages

  /** What LIMIT and OFFSET leave of a list. */
  function Window(list: seq<Id>, limit: nat, offset: nat): seq<Id> {
    list[Min(offset, |list|)..Min(offset + limit, |list|)]
  }

  /** The row asked for in excess tells whether there is a next page. */
  lemma OneMore(list: seq<Id>, limit: nat, offset: nat)
    ensures |Window(list, limit + 1, offset)| > limit <==> HasNext(list, limit, offset)
    ensures HasNext(list, limit, offset) ==> Window(list, limit + 1, offset)[..limit] == Window(list, limit, offset)
    ensures !HasNext(list, limit, offset) ==> Window(list, limit + 1, offset) == Window(list, limit, offset)
  {
  }

  /** The window is the page that the order and the statuses themselves describe. */
  lemma WindowIsPage(db: Db, status: TransferStatus, limit: nat, offset: nat)
    ensures var page, n := Window(Listing(db, Matching(db, status)), limit, offset), Total(db, status);
            && IsPage(db, status, offset, page)
            && OldestFirst(db, page) && (HasNext(Listing(db, Matching(db, status)), limit, offset) <==>
                                           offset + limit < n)
            && |page| == (if n <= offset then 0 else if n - offset < limit then n - offset else limit)
  {
    hide Qualifies, Ahead, Total, Lists, Matching, Listing;
    var list := Listing(db, Matching(db, status));
    ListingLists(db, Matching(db, status));
    MatchingTotal(db, status);
    if offset <= |list| { StretchIsPage(db, status, list, offset, Min(offset + limit, |list|)); }
    else { StretchIsPage(db, status, list, 0, 0); EmptyPage(db, status, offset); }
  }

  lemma EmptyPage(db: Db, status: TransferStatus, offset: nat)
    ensures IsPage(db, status, offset, [])
  {
  }

  /** The rows of one query: the first of those left, one after the other, those that OFFSET skips left out. */
  method Query(db: Db, status: TransferStatus, limit: nat, offset: nat) returns (rows: seq<Id>)
    ensures rows == Window(Listing(db, Matching(db, status)), limit, offset)
    ensures IsPage(db, status, offset, rows) && OldestFirst(db, rows)
  {
    WindowIsPage(db, status, limit, offset);
    hide Listing, Booked;
    ghost var list := Listing(db, Matching(db, status));
    var rest := Matching(db, status);
    assert list[0..] == list;
    rows := [];
    var i := 0;
    while i < offset + limit && rest != {}
      invariant rest <= db.transfers.Keys
      invariant i <= offset + limit && i <= |list| && list[i..] == Listing(db, rest)
      invariant rows == list[Min(offset, i)..i]
      decreases |rest|
    {
      FirstExists(db, rest);
      var t :| t in rest && IsFirst(db, rest, t);
      ListingStarts(db, rest, t);
      assert list[i] == list[i..][0] && list[i + 1..] == list[i..][1..];
      if i >= offset { rows := rows + [t]; }
      rest := rest - {t};
      i := i + 1;
    }
  }

  /** Asks for one row more than a page holds, scans the rows and cuts the extra one off. The page has the rows with
      the status, for PENDING with an entry, that have offset or more of their kind ahead of them by creation time and
      identifier, up to the limit, in that order. */
  method ListForSettlement(db: Db, status: TransferStatus, limit: nat, offset: nat)
    returns (transfers: seq<Id>, hasNext: bool)
    ensures transfers == Window(Listing(db, Matching(db, status)), limit, offset)
    ensures hasNext <==> HasNext(Listing(db, Matching(db, status)), limit, offset)
    ensures IsPage(db, status, offset, transfers) && OldestFirst(db, transfers)
    ensures var n := Total(db, status);
            && |transfers| == (if n <= offset then 0 else if n - offset < limit then n - offset else limit)
            && (hasNext <==> offset + limit < n)
  {
    hide Listing, Matching, Window, HasNext, Total, IsPage, OldestFirst;
    WindowIsPage(db, status, limit, offset);
    var rows := Query(db, status, limit + 1, offset);
    OneMore(Listing(db, Matching(db, status)), limit, offset);
    transfers := [];
    var i := 0;
    while i < |rows|
      invariant 0 <= i <= |rows| && transfers == rows[..i]
    {
      transfers := transfers + [rows[i]];
      i := i + 1;
    }
    hasNext := |transfers| > limit;
    if hasNext { transfers := transfers[..limit]; }
  }

  predicate HasNext(list: seq<Id>, limit: nat, offset: nat) { offset + limit < |list| }

  /** Page after page until there is no next one. */
  function Pages(list: seq<Id>, limit: nat, offset: nat): seq<Id>
    requires limit > 0
    decreases |list| - offset
  {
    Window(list, limit, offset) + if HasNext(list, limit, offset) then Pages(list, limit, offset + limit) else []
  }

  lemma {:induction false} PagesFromOffset(list: seq<Id>, limit: nat, offset: nat)
    requires limit > 0 && offset <= |list|
    ensures Pages(list, limit, offset) == list[offset..]
    decreases |list| - offset
  {
    if HasNext(list, limit, offset) {
      PagesFromOffset(list, limit, offset + limit);
      assert list[offset..] == list[offset..offset + limit] + list[offset + limit..];
    }
  }

  /** The transfers that match are those that the dashboard counts. */
  lemma MatchingIsCounted(db: Db, status: TransferStatus)
    ensures Matching(db, status) == if status == Pending then Stats.Backlog(db) else Stats.WithStatus(db, status)
  {
    hide Booked;
  }

  lemma WholeInOrder(db: Db, status: TransferStatus, list: seq<Id>)
    requires Lists(db, Matching(db, status), list)
    ensures OldestFirst(db, list) && forall t :: t in list <==> Qualifies(db, status, t)
  {
    MatchingQualifies(db, status);
    hide Matching, Qualifies;
  }

  /** On a fixed snapshot the pages of any size, followed to the last one, give the whole listing: every transfer that
      matches, once, oldest first. Pending pages list what the dashboard counts as pending. */
  lemma PagesCoverTheListing(db: Db, status: TransferStatus, limit: nat)
    requires limit > 0
    ensures var pages := Pages(Listing(db, Matching(db, status)), limit, 0);
            && Lists(db, Matching(db, status), pages) && |pages| == |Matching(db, status)|
            && (status == Pending ==> |pages| == |Stats.Backlog(db)|)
            && (status != Pending ==> |pages| == |Stats.WithStatus(db, status)|)
            && OldestFirst(db, pages) && (forall t :: t in pages <==> Qualifies(db, status, t))
  {
    hide Listing, Lists, Matching, Pages, Booked, OldestFirst, Qualifies, Stats.Backlog, Stats.WithStatus;
    var list := Listing(db, Matching(db, status));
    PagesFromOffset(list, limit, 0);
    assert list[0..] == list;
    ListingLists(db, Matching(db, status));
    WholeInOrder(db, status, list);
    MatchingIsCounted(db, status);
  }

  /** A client that asks for page after page while it is told that there is a next one gets exactly the transfers that
      match, each once, oldest first. */
  method FollowPages(db: Db, status: TransferStatus, limit: nat) returns (all: seq<Id>)
    requires limit > 0
    ensures Lists(db, Matching(db, status), all) && |all| == |Matching(db, status)|
    ensures OldestFirst(db, all) && forall t :: t in all <==> Qualifies(db, status, t)
  {
    hide Listing, Matching, Window, Booked, Lists, IsPage, OldestFirst, Total, Qualifies;
    ghost var list := Listing(db, Matching(db, status));
    var hasNext, offset := true, 0;
    all := [];
    while hasNext
      invariant hasNext ==> all + Pages(list, limit, offset) == Pages(list, limit, 0)
      invariant !hasNext ==> all == Pages(list, limit, 0)
      decreases hasNext, |list| - offset
    {
      var page: seq<Id>;
      page, hasNext := ListForSettlement(db, status, limit, offset);
      assert all + Pages(list, limit, offset) == all + page
             + (if hasNext then Pages(list, limit, offset + limit) else []);
      all := all + page;
      offset := offset + limit;
    }
    PagesCoverTheListing(db, status, limit);
  }
}
