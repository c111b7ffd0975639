/** Keyset pagination over (created_at, id) descending (internal/adapters/postgres/request.go, internal/domain/query.go). */
module Pagination {
  import opened Domain
  import opened Ordering
  import Cursor

  datatype Row = Row(id: Id, userId: string, status: RequestStatus, channel: Channel, createdAt: Time)

  datatype Filter = Filter(
    userId: string, status: Option<RequestStatus>, channel: Option<Channel>, from: Option<Time>, to: Option<Time>,
    limit: int, cursor: Option<Id>, cursorAt: Option<Time>)

  const DEFAULT_LIMIT := 50
  const MAX_LIMIT := 200

  /** The page size in force: the default for non-positive limits, the maximum for larger ones. */
  function PageSize(limit: int): (n: nat)
    ensures 1 <= n <= 200 && n == if limit <= 0 then 50 else if limit <= 200 then limit else 200
  {
    if limit <= 0 then DEFAULT_LIMIT else if limit > MAX_LIMIT then MAX_LIMIT else limit
  }

  class ListFilter {
    var f: Filter

    constructor (f: Filter)
      ensures this.f == f
    {
      this.f := f;
    }

    method Normalize()
      modifies this
      ensures f == old(f).(limit := PageSize(old(f).limit))
    {
      if f.limit <= 0 {
        f := f.(limit := DEFAULT_LIMIT);
      }
      if f.limit > MAX_LIMIT {
        f := f.(limit := MAX_LIMIT);
      }
    }
  }

  // ---- The query ----

  /** One conjunct of the WHERE clause. */
  datatype Cond =
    | UserIs(userId: string)
    | StatusIs(status: RequestStatus)
    | ChannelIs(channel: Channel)
    | Since(from: Time)
    | Until(to: Time)
    | Older(at: Time, id: Id)

  predicate Holds(c: Cond, r: Row)
  {
    match c
    case UserIs(userId) => r.userId == userId
    case StatusIs(status) => r.status == status
    case ChannelIs(channel) => r.channel == channel
    case Since(from) => r.createdAt >= from
    case Until(to) => r.createdAt <= to
    case Older(at, id) => IsOlder(r, at, id)
  }

  /** Row comparison (created_at, id) < (at, id). */
  predicate IsOlder(r: Row, at: Time, id: Id)
  {
    r.createdAt < at || (r.createdAt == at && r.id < id)
  }

  predicate HoldsAll(where: seq<Cond>, r: Row)
  {
    forall i :: 0 <= i < |where| ==> Holds(where[i], r)
  }

  /** ORDER BY created_at DESC, id DESC. */
  predicate NotOlder(a: Row, b: Row)
  {
    a.createdAt > b.createdAt || (a.createdAt == b.createdAt && a.id >= b.id)
  }

  function Select(table: seq<Row>, where: seq<Cond>): seq<Row>
  {
    if table == [] then []
    else (if HoldsAll(where, table[0]) then [table[0]] else []) + Select(table[1..], where)
  }

  function Take<T>(s: seq<T>, n: nat): seq<T>
  {
    if |s| <= n then s else s[..n]
  }

  function Query(table: seq<Row>, where: seq<Cond>, limit: nat): seq<Row>
  {
    Take(Sort(Select(table, where), NotOlder), limit)
  }

  /** The conjuncts of a filter, without its cursor. */
  function BaseConds(f: Filter): seq<Cond>
  {
    [UserIs(f.userId)]
    + (if f.status.Some? then [StatusIs(f.status.value)] else [])
    + (if f.channel.Some? then [ChannelIs(f.channel.value)] else [])
    + (if f.from.Some? then [Since(f.from.value)] else [])
    + (if f.to.Some? then [Until(f.to.value)] else [])
  }

  function Conds(f: Filter): seq<Cond>
  {
    BaseConds(f) + if f.cursor.Some? && f.cursorAt.Some? then [Older(f.cursorAt.value, f.cursor.value)] else []
  }

  datatype Page = Page(items: seq<Row>, next: Option<(Id, Time)>)

  /** The page a filter asks for: the first rows that match, and a cursor exactly when there are more. */
  function PageOf(table: seq<Row>, f: Filter): Page
  {
    var all := Sort(Select(table, Conds(f)), NotOlder);
    var n := PageSize(f.limit);
    Page(Take(all, n), if |all| > n then Some((all[n - 1].id, all[n - 1].createdAt)) else None)
  }

  lemma PageSizes()
    ensures forall limit :: 1 <= PageSize(limit) <= MAX_LIMIT
  {
  }

  /** Builds the WHERE clause step by step, fetches one row more than the page holds, and cuts it off. */
  method ListRequests(table: seq<Row>, filter: Filter) returns (page: Page)
    ensures page == PageOf(table, filter)
    ensures DistinctIds(table) ==> IsPage(table, filter, page)
  {
    hide Sort, Select, NotOlder, PageSize, DistinctIds, IsPage;
    if DistinctIds(table) {
      PageIsPage(table, filter);
    }
    PageSizes();
    var f := new ListFilter(filter);
    f.Normalize();
    var where := [UserIs(f.f.userId)];
    if f.f.status.Some? {
      where := where + [StatusIs(f.f.status.value)];
    }
    if f.f.channel.Some? {
      where := where + [ChannelIs(f.f.channel.value)];
    }
    if f.f.from.Some? {
      where := where + [Since(f.f.from.value)];
    }
    if f.f.to.Some? {
      where := where + [Until(f.f.to.value)];
    }
    assert where == BaseConds(filter);
    if f.f.cursor.Some? && f.f.cursorAt.Some? {
      where := where + [Older(f.f.cursorAt.value, f.f.cursor.value)];
    }
    assert where == Conds(filter);
    var items := Query(table, where, f.f.limit + 1);
    if |items| > f.f.limit {
      var last := items[f.f.limit - 1];
      return Page(items[..f.f.limit], Some((last.id, last.createdAt)));
    }
    return Page(items, None);
  }

  // ---- What a page holds ----

  /** The rows a filter asks for, column by column, whatever the page. */
  predicate IsListed(f: Filter, r: Row)
  {
    && r.userId == f.userId
    && (f.status.Some? ==> r.status == f.status.value)
    && (f.channel.Some? ==> r.channel == f.channel.value)
    && (f.from.Some? ==> f.from.value <= r.createdAt)
    && (f.to.Some? ==> r.createdAt <= f.to.value)
  }

  /** Beyond the cursor, if one is given in full: created earlier, or at the same instant with a lower identifier. */
  predicate IsBeyond(f: Filter, r: Row)
  {
    f.cursor.Some? && f.cursorAt.Some? ==>
      r.createdAt < f.cursorAt.value || (r.createdAt == f.cursorAt.value && r.id < f.cursor.value)
  }

  /**
   * The newest rows asked for beyond the cursor, newest first: rows are missing only from a full page and only if they are
   * older than all of it, and then the page says where to go on.
   */
  ghost predicate IsPage(table: seq<Row>, f: Filter, page: Page)
  {
    && Descending(page.items) && |page.items| <= PageSize(f.limit)
    && (forall r :: r in page.items ==> r in table && IsListed(f, r) && IsBeyond(f, r))
    && (page.next.None? ==> forall r :: r in table && IsListed(f, r) && IsBeyond(f, r) ==> r in page.items)
    && (page.next.Some? ==>
          && |page.items| == PageSize(f.limit)
          && var last := page.items[|page.items| - 1];
             && page.next.value == (last.id, last.createdAt)
             && (exists r :: r in table && IsListed(f, r) && IsBeyond(f, r) && r !in page.items)
             && forall r :: r in table && IsListed(f, r) && IsBeyond(f, r) && r !in page.items ==>
                              r.createdAt < last.createdAt || (r.createdAt == last.createdAt && r.id < last.id))
  }

  lemma HoldsBoth(a: seq<Cond>, b: seq<Cond>, r: Row)
    ensures HoldsAll(a + b, r) <==> HoldsAll(a, r) && HoldsAll(b, r)
  {
    if HoldsAll(a + b, r) {
      assert forall i :: 0 <= i < |a| ==> (a + b)[i] == a[i];
      assert forall i :: 0 <= i < |b| ==> (a + b)[|a| + i] == b[i];
    }
  }

  lemma HoldsOne(c: Cond, r: Row)
    ensures HoldsAll([c], r) <==> Holds(c, r)
    ensures HoldsAll([], r)
  {
    assert [c][0] == c;
  }

  /** The WHERE clause without the cursor says what the filter says. */
  lemma BaseCondsMean(f: Filter, r: Row)
    ensures HoldsAll(BaseConds(f), r) <==> IsListed(f, r)
  {
    hide HoldsAll;
    var user := [UserIs(f.userId)];
    var status := if f.status.Some? then [StatusIs(f.status.value)] else [];
    var channel := if f.channel.Some? then [ChannelIs(f.channel.value)] else [];
    var since := if f.from.Some? then [Since(f.from.value)] else [];
    var until := if f.to.Some? then [Until(f.to.value)] else [];
    HoldsBoth(user + status + channel + since, until, r);
    HoldsBoth(user + status + channel, since, r);
    HoldsBoth(user + status, channel, r);
    HoldsBoth(user, status, r);
    HoldsOne(UserIs(f.userId), r);
    if f.status.Some? { HoldsOne(StatusIs(f.status.value), r); }
    if f.channel.Some? { HoldsOne(ChannelIs(f.channel.value), r); }
    if f.from.Some? { HoldsOne(Since(f.from.value), r); }
    if f.to.Some? { HoldsOne(Until(f.to.value), r); }
  }

  lemma CondsMean(f: Filter, r: Row)
    ensures HoldsAll(Conds(f), r) <==> IsListed(f, r) && IsBeyond(f, r)
  {
    hide HoldsAll, BaseConds;
    BaseCondsMean(f, r);
    var beyond := if f.cursor.Some? && f.cursorAt.Some? then [Older(f.cursorAt.value, f.cursor.value)] else [];
    HoldsBoth(BaseConds(f), beyond, r);
    HoldsOne(UserIs(f.userId), r);
    if f.cursor.Some? && f.cursorAt.Some? {
      HoldsOne(Older(f.cursorAt.value, f.cursor.value), r);
    }
  }

  lemma PageIsPage(table: seq<Row>, f: Filter)
    requires DistinctIds(table)
    ensures IsPage(table, f, PageOf(table, f))
  {
    hide Sort, Select, NotOlder, HoldsAll, Conds, DistinctIds, IsListed, IsBeyond, PageSize, Descending;
    var all, n := Sort(Select(table, Conds(f)), NotOlder), PageSize(f.limit);
    SelectionIsDescending(table, Conds(f));
    PageSizes();
    forall r ensures r in all <==> r in table && IsListed(f, r) && IsBeyond(f, r) {
      CondsMean(f, r);
    }
    if |all| > n {
      CutOff(all, n);
      assert all[n] in all;
    }
  }

  /** The first n of descending rows: the others are older than all of them. */
  lemma CutOff(all: seq<Row>, n: nat)
    requires Descending(all) && 1 <= n < |all|
    ensures Descending(all[..n]) && all[n] !in all[..n]
    ensures forall r :: r in all[..n] ==> r in all
    ensures forall r :: r in all && r !in all[..n] ==>
                          r.createdAt < all[n - 1].createdAt || (r.createdAt == all[n - 1].createdAt && r.id < all[n - 1].id)
  {
    forall r | r in all && r !in all[..n]
      ensures r.createdAt < all[n - 1].createdAt || (r.createdAt == all[n - 1].createdAt && r.id < all[n - 1].id)
    {
      assert all == all[..n] + all[n..];
      var i :| 0 <= i < |all| - n && all[n..][i] == r;
    }
  }

  // ---- Following the cursors ----

  ghost predicate DistinctIds(table: seq<Row>)
  {
    forall i, j :: 0 <= i < j < |table| ==> table[i].id != table[j].id
  }

  /** Strictly newer first. */
  ghost predicate Descending(s: seq<Row>)
  {
    forall i, j :: 0 <= i < j < |s| ==>
                     s[j].createdAt < s[i].createdAt || (s[j].createdAt == s[i].createdAt && s[j].id < s[i].id)
  }

  lemma RowOrder()
    ensures TotalOrder(NotOlder)
  {
  }

  lemma {:induction false} SelectCounts(table: seq<Row>, where: seq<Cond>, r: Row)
    ensures multiset(Select(table, where))[r] == if HoldsAll(where, r) then multiset(table)[r] else 0
  {
    if table != [] {
      SelectCounts(table[1..], where, r);
      assert table == [table[0]] + table[1..];
    }
  }

  lemma {:induction false} OneRowPerId(table: seq<Row>, r: Row)
    requires DistinctIds(table)
    ensures multiset(table)[r] <= 1
  {
    if table != [] {
      OneRowPerId(table[1..], r);
      assert table == [table[0]] + table[1..];
      assert r == table[0] ==> r !in table[1..];
    }
  }

  /** The matching rows in query order: each once, strictly descending. */
  lemma SelectionIsDescending(table: seq<Row>, where: seq<Cond>)
    requires DistinctIds(table)
    ensures var all := Sort(Select(table, where), NotOlder);
            && Descending(all)
            && (forall r :: multiset(all)[r] == if HoldsAll(where, r) then multiset(table)[r] else 0)
            && (forall r :: r in all <==> r in table && HoldsAll(where, r))
  {
    hide Sort, Select, HoldsAll, Sorted, TotalOrder, DistinctIds, Descending, NotOlder;
    var all := Sort(Select(table, where), NotOlder);
    RowOrder();
    SortIsSorted(Select(table, where), NotOlder);
    forall r ensures multiset(all)[r] == if HoldsAll(where, r) then multiset(table)[r] else 0 {
      SelectCounts(table, where, r);
    }
    assert forall r :: r in all <==> r in multiset(all);
    assert forall r :: r in table <==> r in multiset(table);
    forall r ensures multiset(all)[r] <= 1 {
      OneRowPerId(table, r);
    }
    SortedIsDescending(table, all);
  }

  lemma SortedIsDescending(table: seq<Row>, all: seq<Row>)
    requires DistinctIds(table) && Sorted(all, NotOlder)
    requires forall r :: r in all ==> r in table
    requires forall r :: multiset(all)[r] <= 1
    ensures Descending(all)
  {
    forall i, j | 0 <= i < j < |all| ensures IsOlder(all[j], all[i].createdAt, all[i].id) {
      assert NotOlder(all[i], all[j]);
      if all[i].id == all[j].id {
        SameIdSameRow(table, all[i], all[j]);
        TwiceCounts(all, i, j);
      }
    }
  }

  lemma SameIdSameRow(table: seq<Row>, a: Row, b: Row)
    requires DistinctIds(table) && a in table && b in table && a.id == b.id
    ensures a == b
  {
  }

  lemma TwiceCounts(s: seq<Row>, i: nat, j: nat)
    requires i < j < |s| && s[i] == s[j]
    ensures multiset(s)[s[i]] >= 2
  {
    assert s == s[..j] + [s[j]] + s[j + 1..];
    assert s[i] in s[..j] && s[..j][i] == s[i];
    assert s[i] in multiset(s[..j]);
  }

  /** Two descending sequences of the same rows are equal. */
  lemma {:induction false} DescendingIsUnique(s: seq<Row>, t: seq<Row>)
    requires Descending(s) && Descending(t) && forall r :: r in s <==> r in t
    ensures s == t
  {
    if s == [] {
      assert forall i :: 0 <= i < |t| ==> t[i] in t;
    } else {
      assert s[0] in t && t[0] in s;
      assert s[0] == t[0];
      forall r | r in s[1..] ensures r in t[1..] {
        assert r in s && r != s[0];
      }
      forall r | r in t[1..] ensures r in s[1..] {
        assert r in t && r != t[0];
      }
      DescendingIsUnique(s[1..], t[1..]);
    }
  }

  /** Asking from the n-th row on yields the rest of the list. */
  lemma CursorResumes(table: seq<Row>, f: Filter, n: nat)
    requires DistinctIds(table)
    requires var all := Sort(Select(table, BaseConds(f)), NotOlder); 0 < n <= |all|
    ensures var all := Sort(Select(table, BaseConds(f)), NotOlder);
            Sort(Select(table, Conds(f.(cursor := Some(all[n - 1].id), cursorAt := Some(all[n - 1].createdAt)))), NotOlder) == all[n..]
  {
    hide Sort, Select, NotOlder, HoldsAll, BaseConds, Conds, DistinctIds;
    var all := Sort(Select(table, BaseConds(f)), NotOlder);
    var last := all[n - 1];
    var g := f.(cursor := Some(last.id), cursorAt := Some(last.createdAt));
    var rest := Sort(Select(table, Conds(g)), NotOlder);
    SelectionIsDescending(table, BaseConds(f));
    SelectionIsDescending(table, Conds(g));
    CursorCond(f, last);
    forall r ensures r in rest <==> r in all[n..] {
      if r in all {
        var i :| 0 <= i < |all| && all[i] == r;
        assert i >= n ==> r == all[n..][i - n];
      }
    }
    DescendingIsUnique(rest, all[n..]);
  }

  lemma CursorCond(f: Filter, last: Row)
    ensures var g := f.(cursor := Some(last.id), cursorAt := Some(last.createdAt));
            forall r :: HoldsAll(Conds(g), r) <==> HoldsAll(BaseConds(f), r) && IsOlder(r, last.createdAt, last.id)
  {
    var g := f.(cursor := Some(last.id), cursorAt := Some(last.createdAt));
    assert BaseConds(g) == BaseConds(f);
    var c := Older(last.createdAt, last.id);
    assert Conds(g) == BaseConds(f) + [c];
    forall r ensures HoldsAll(Conds(g), r) <==> HoldsAll(BaseConds(f), r) && Holds(c, r) {
      assert Conds(g)[|BaseConds(f)|] == c;
      assert forall i :: 0 <= i < |BaseConds(f)| ==> Conds(g)[i] == BaseConds(f)[i];
    }
  }

  /** What a client reads back from the token of a page. */
  ghost predicate TokensFit(table: seq<Row>)
  {
    forall r :: r in table ==> r.id < Cursor.UUID_LIMIT && Cursor.MIN_INT64 <= r.createdAt <= Cursor.MAX_INT64
  }

  /** One page of the rows from the k-th on: a full one with the key of its last row, or all that is left. */
  lemma PageStep(table: seq<Row>, f: Filter, all: seq<Row>, k: nat)
    requires k <= |all| && Sort(Select(table, Conds(f)), NotOlder) == all[k..]
    ensures var page, n := PageOf(table, f), PageSize(f.limit);
            && k + |page.items| <= |all|
            && all[..k] + page.items == all[..k + |page.items|]
            && (page.next.None? ==> |page.items| <= n && k + |page.items| == |all|)
            && (page.next.Some? ==> |page.items| == n && k + n < |all|
                                    && page.next.value == (all[k + n - 1].id, all[k + n - 1].createdAt))
  {
    hide Sort, Select, Conds, NotOlder;
  }

  /** The token of a page of fitting rows gives back the key it was made of. */
  lemma TokenReadsBack(table: seq<Row>, r: Row)
    requires TokensFit(table) && r in table
    ensures r.id < Cursor.UUID_LIMIT
    ensures Cursor.DecodeCursor(Cursor.EncodeCursor(r.id, Some(r.createdAt))) == Ok((r.id, r.createdAt))
  {
    hide Cursor.EncodeCursor, Cursor.DecodeCursor;
    Cursor.TokenIsLosslessIff(r.id, r.createdAt);
  }

  /** After so many pages the client has that many full pages of rows, or all of them, and the key of the last one. */
  ghost predicate IsAt(all: seq<Row>, limit: int, rows: seq<Row>, pages: nat, next: Option<(Id, Time)>)
  {
    && |rows| <= |all| && rows == all[..|rows|]
    && (pages == 1 || (pages > 1 && RowsOn(pages - 1, limit) < |rows|))
    && match next
       case None => |rows| == |all| && |rows| <= RowsOn(pages, limit)
       case Some(last) => 0 < |rows| == RowsOn(pages, limit) < |all| && last == (all[|rows| - 1].id, all[|rows| - 1].createdAt)
  }

  lemma FirstPage(table: seq<Row>, f: Filter, all: seq<Row>)
    requires all == Sort(Select(table, BaseConds(f)), NotOlder)
    ensures var g := f.(cursor := None, cursorAt := None);
            var page := PageOf(table, g);
            IsAt(all, f.limit, page.items, 1, page.next)
  {
    hide Sort, Select, NotOlder, RowsOn, PageOf, PageSize;
    var g := f.(cursor := None, cursorAt := None);
    WithoutCursor(f);
    PageSizes();
    OneMorePage(0, f.limit);
    PageStep(table, g, all, 0);
  }

  lemma NextPage(table: seq<Row>, f: Filter, all: seq<Row>, rows: seq<Row>, pages: nat, last: (Id, Time))
    requires DistinctIds(table) && all == Sort(Select(table, BaseConds(f)), NotOlder)
    requires IsAt(all, f.limit, rows, pages, Some(last))
    ensures var page := PageOf(table, f.(cursor := Some(last.0), cursorAt := Some(last.1)));
            && IsAt(all, f.limit, rows + page.items, pages + 1, page.next)
            && (page.next.Some? ==> |page.items| > 0)
  {
    hide Sort, Select, NotOlder, RowsOn, PageOf, PageSize, Conds, BaseConds, DistinctIds;
    PageSizes();
    CursorResumes(table, f, |rows|);
    PageStep(table, f.(cursor := Some(last.0), cursorAt := Some(last.1)), all, |rows|);
    OneMorePage(pages, f.limit);
  }

  /**
   * A client that follows the page tokens from the first page on gets every matching row once, in strictly descending
   * order, and comes to an end; every page but the last is full.
   */
  method FollowPages(table: seq<Row>, f: Filter) returns (rows: seq<Row>, pages: nat)
    requires DistinctIds(table) && TokensFit(table)
    ensures Descending(rows)
    ensures forall r :: r in rows <==> r in table && IsListed(f, r)
    ensures pages == 1 || (pages > 1 && RowsOn(pages - 1, f.limit) < |rows|)
    ensures |rows| <= RowsOn(pages, f.limit)
  {
    hide Sort, Select, NotOlder, HoldsAll, BaseConds, PageOf, Descending, DistinctIds, TokensFit, RowsOn, IsListed, IsPage;
    hide Cursor.EncodeCursor, Cursor.DecodeCursor;
    forall r ensures HoldsAll(BaseConds(f), r) <==> IsListed(f, r) {
      BaseCondsMean(f, r);
    }
    ghost var all := Sort(Select(table, BaseConds(f)), NotOlder);
    SelectionIsDescending(table, BaseConds(f));
    FirstPage(table, f, all);
    var page := ListRequests(table, f.(cursor := None, cursorAt := None));
    rows, pages := page.items, 1;
    while page.next.Some?
      invariant IsAt(all, f.limit, rows, pages, page.next)
      decreases |all| - |rows|, page.next.Some?
    {
      var last := page.next.value;
      assert all[|rows| - 1] in all;
      TokenReadsBack(table, all[|rows| - 1]);
      var token := Cursor.EncodeCursor(last.0, Some(last.1));
      var back := Cursor.DecodeCursor(token);
      NextPage(table, f, all, rows, pages, last);
      page := ListRequests(table, f.(cursor := Some(back.value.0), cursorAt := Some(back.value.1)));
      rows, pages := rows + page.items, pages + 1;
    }
    assert rows == all;
  }

  /** The rows on so many full pages. */
  function RowsOn(pages: nat, limit: int): nat
  {
    pages * PageSize(limit)
  }

  lemma OneMorePage(pages: nat, limit: int)
    ensures RowsOn(pages + 1, limit) == RowsOn(pages, limit) + PageSize(limit) && RowsOn(0, limit) == 0
  {
  }

  lemma WithoutCursor(f: Filter)
    ensures var g := f.(cursor := None, cursorAt := None); BaseConds(g) == BaseConds(f) && Conds(g) == BaseConds(f)
  {
  }

  // ---- Following the cursors while rows are added ----

  /** The table as page i finds it: rows are added between pages, finitely often. */
  function TableAt(tables: seq<seq<Row>>, i: nat): (table: seq<Row>)
    requires tables != []
    ensures i < |tables| ==> table == tables[i]
    ensures i >= |tables| ==> table == tables[|tables| - 1]
  {
    tables[if i < |tables| then i else |tables| - 1]
  }

  /** Rows are only added, identifiers stay unique, and every key fits a token. */
  ghost predicate Grows(tables: seq<seq<Row>>)
  {
    && tables != [] && TokensFit(tables[|tables| - 1])
    && (forall i :: 0 <= i < |tables| ==> DistinctIds(tables[i]))
    && (forall i, j, r :: 0 <= i <= j < |tables| && r in tables[i] ==> r in tables[j])
  }

  lemma GrowsFromTo(tables: seq<seq<Row>>, i: nat)
    requires Grows(tables)
    ensures DistinctIds(TableAt(tables, i))
    ensures forall r :: r in tables[0] ==> r in TableAt(tables, i)
    ensures forall r :: r in TableAt(tables, i) ==> r in tables[|tables| - 1]
  {
    hide DistinctIds, TokensFit;
  }

  /** A matching row, beyond the cursor if there is one. */
  predicate IsWanted(f: Filter, cursor: Option<(Id, Time)>, r: Row)
  {
    HoldsAll(BaseConds(f), r) && (cursor.Some? ==> IsOlder(r, cursor.value.1, cursor.value.0))
  }

  function At(f: Filter, cursor: Option<(Id, Time)>): Filter
  {
    match cursor
    case None => f.(cursor := None, cursorAt := None)
    case Some(last) => f.(cursor := Some(last.0), cursorAt := Some(last.1))
  }

  /** Any page: the newest wanted rows in order, and a cursor that leaves exactly the others, if there are any. */
  lemma PageIsNewest(table: seq<Row>, f: Filter, cursor: Option<(Id, Time)>)
    requires DistinctIds(table)
    ensures var page := PageOf(table, At(f, cursor));
            && Descending(page.items)
            && (forall r :: r in page.items ==> r in table && IsWanted(f, cursor, r))
            && (forall r :: r in table && IsWanted(f, cursor, r) ==>
                              r in page.items || (page.next.Some? && IsOlder(r, page.next.value.1, page.next.value.0)))
            && (page.next.Some? ==> page.items != [] && page.next.value == KeyOf(page.items[|page.items| - 1]))
  {
    hide Sort, Select, NotOlder, HoldsAll, BaseConds, DistinctIds;
    var g := At(f, cursor);
    var all := Sort(Select(table, Conds(g)), NotOlder);
    SelectionIsDescending(table, Conds(g));
    CondsAreWanted(f, cursor);
    PageSizes();
    var page := PageOf(table, g);
    assert page.items <= all;
    forall r | r in table && IsWanted(f, cursor, r)
      ensures r in page.items || (page.next.Some? && IsOlder(r, page.next.value.1, page.next.value.0))
    {
      var i :| 0 <= i < |all| && all[i] == r;
      assert i < |page.items| ==> page.items[i] == r;
    }
  }

  function KeyOf(r: Row): (Id, Time)
  {
    (r.id, r.createdAt)
  }

  lemma CondsAreWanted(f: Filter, cursor: Option<(Id, Time)>)
    ensures forall r :: HoldsAll(Conds(At(f, cursor)), r) <==> IsWanted(f, cursor, r)
  {
    hide BaseConds, HoldsAll;
    match cursor
    case None => WithoutCursor(f);
    case Some(last) => CursorCond(f, Row(last.0, "", RequestPending, Sms, last.1));
  }

  /** Older rows after newer ones stay in order. */
  lemma AppendDescends(rows: seq<Row>, items: seq<Row>)
    requires Descending(rows) && Descending(items)
    requires rows != [] ==> forall r :: r in items ==> IsOlder(r, rows[|rows| - 1].createdAt, rows[|rows| - 1].id)
    ensures Descending(rows + items)
  {
    var both := rows + items;
    forall i, j | 0 <= i < j < |both| ensures IsOlder(both[j], both[i].createdAt, both[i].id) {
      if i < |rows| <= j {
        assert both[j] in items;
        assert i < |rows| - 1 ==> IsOlder(rows[|rows| - 1], rows[i].createdAt, rows[i].id);
      }
    }
  }

  lemma {:induction false} DescendingFits(rows: seq<Row>, table: seq<Row>)
    requires Descending(rows) && forall r :: r in rows ==> r in table
    ensures |rows| <= |table|
    decreases |rows|
  {
    if rows != [] {
      assert rows[0] in rows;
      var i :| 0 <= i < |table| && table[i] == rows[0];
      var others := table[..i] + table[i + 1..];
      forall r | r in rows[1..] ensures r in others {
        var j :| 0 <= j < |rows[1..]| && rows[1..][j] == r;
        assert IsOlder(rows[j + 1], rows[0].createdAt, rows[0].id) && rows[j + 1] in rows;
        var m :| 0 <= m < |table| && table[m] == r;
        assert if m < i then others[m] == r else others[m - 1] == r;
      }
      DescendingFits(rows[1..], others);
    }
  }

  /** What a client has after some pages of a growing table. */
  ghost predicate HasSoFar(tables: seq<seq<Row>>, f: Filter, rows: seq<Row>, next: Option<(Id, Time)>)
    requires tables != []
  {
    && Descending(rows)
    && (forall r :: r in rows ==> r in tables[|tables| - 1] && HoldsAll(BaseConds(f), r))
    && (forall r :: r in tables[0] && HoldsAll(BaseConds(f), r) ==>
                      r in rows || (next.Some? && IsOlder(r, next.value.1, next.value.0)))
    && (next.Some? ==> rows != [] && next.value == KeyOf(rows[|rows| - 1]))
  }

  lemma OneMoreGrownPage(tables: seq<seq<Row>>, f: Filter, rows: seq<Row>, cursor: Option<(Id, Time)>, i: nat)
    requires Grows(tables) && (cursor.None? ==> rows == []) && (cursor.Some? ==> HasSoFar(tables, f, rows, cursor))
    ensures var page := PageOf(TableAt(tables, i), At(f, cursor));
            HasSoFar(tables, f, rows + page.items, page.next) && (page.next.Some? ==> page.items != [])
  {
    hide Grows, PageOf, HoldsAll, BaseConds, Descending, DistinctIds;
    GrowsIsNotEmpty(tables);
    GrowsFromTo(tables, i);
    PageIsNewest(TableAt(tables, i), f, cursor);
    AppendDescends(rows, PageOf(TableAt(tables, i), At(f, cursor)).items);
  }

  /**
   * While rows are added between pages, whatever their age, a client still gets every row that was there from the start
   * exactly once, no row twice, and all in strictly descending order; and once rows stop being added it comes to an end.
   */
  method FollowGrowingPages(tables: seq<seq<Row>>, f: Filter) returns (rows: seq<Row>)
    requires Grows(tables)
    ensures Descending(rows)
    ensures forall r :: r in tables[0] && IsListed(f, r) ==> r in rows
    ensures forall r :: r in rows ==> r in tables[|tables| - 1] && IsListed(f, r)
  {
    hide Grows, PageOf, HoldsAll, BaseConds, Descending, HasSoFar, IsListed, IsPage;
    forall r ensures HoldsAll(BaseConds(f), r) <==> IsListed(f, r) {
      BaseCondsMean(f, r);
    }
    hide Cursor.EncodeCursor, Cursor.DecodeCursor;
    OneMoreGrownPage(tables, f, [], None, 0);
    GrowsIsNotEmpty(tables);
    var page := ListRequests(TableAt(tables, 0), At(f, None));
    var i := 1;
    rows := page.items;
    assert [] + page.items == page.items;
    while page.next.Some?
      invariant HasSoFar(tables, f, rows, page.next)
      decreases |tables[|tables| - 1]| - |rows|, page.next.Some?
    {
      var last := page.next.value;
      SoFarFits(tables, f, rows, page.next);
      TokenReadsBack(tables[|tables| - 1], rows[|rows| - 1]);
      var token := Cursor.EncodeCursor(last.0, Some(last.1));
      var back := Cursor.DecodeCursor(token);
      OneMoreGrownPage(tables, f, rows, Some(last), i);
      page := ListRequests(TableAt(tables, i), At(f, Some((back.value.0, back.value.1))));
      rows, i := rows + page.items, i + 1;
      SoFarFits(tables, f, rows, page.next);
    }
    SoFarIsAll(tables, f, rows);
  }

  lemma GrowsIsNotEmpty(tables: seq<seq<Row>>)
    requires Grows(tables)
    ensures tables != [] && TokensFit(tables[|tables| - 1])
  {
  }

  lemma SoFarFits(tables: seq<seq<Row>>, f: Filter, rows: seq<Row>, next: Option<(Id, Time)>)
    requires tables != [] && HasSoFar(tables, f, rows, next)
    ensures |rows| <= |tables[|tables| - 1]|
    ensures next.Some? ==> rows != [] && next.value == KeyOf(rows[|rows| - 1]) && rows[|rows| - 1] in tables[|tables| - 1]
  {
    hide HoldsAll, BaseConds, Descending;
    DescendingFits(rows, tables[|tables| - 1]);
    assert rows != [] ==> rows[|rows| - 1] in rows;
  }

  lemma SoFarIsAll(tables: seq<seq<Row>>, f: Filter, rows: seq<Row>)
    requires tables != [] && HasSoFar(tables, f, rows, None)
    ensures Descending(rows)
    ensures forall r :: r in tables[0] && HoldsAll(BaseConds(f), r) ==> r in rows
    ensures forall r :: r in rows ==> r in tables[|tables| - 1] && HoldsAll(BaseConds(f), r)
  {
    hide HoldsAll, BaseConds, Descending;
  }
}
