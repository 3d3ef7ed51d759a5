/** Reading a list page by page with the last row's (created_at, id) as cursor. */
module Paging {
  import opened Types

  // A row as far as ordering is concerned. Times may tie; ids do not.
  datatype Stamp = Stamp(createdAt: nat, id: nat)

  datatype Cursor = Start | Before(createdAt: nat, id: Option<nat>)

  const DefaultLimit: int := 100
  const MaxLimit: int := 200

  function Clamp(limit: int): (n: nat)
    ensures 1 <= n <= MaxLimit
    ensures 1 <= limit <= MaxLimit ==> n == limit
  {
    if limit <= 0 then DefaultLimit else if limit > MaxLimit then MaxLimit else limit
  }

  // A limit left out is 100, one too large is 200.
  lemma ClampedEnds(limit: int)
    ensures limit <= 0 ==> Clamp(limit) == 100
    ensures limit > 200 ==> Clamp(limit) == 200
  {
  }

  // x comes after y in the newest-first order.
  predicate Below(x: Stamp, y: Stamp) {
    x.createdAt < y.createdAt || (x.createdAt == y.createdAt && x.id < y.id)
  }

  predicate Admits(cursor: Cursor, row: Stamp) {
    match cursor
    case Start => true
    case Before(time, id) => row.createdAt < time || (id.Some? && row.createdAt == time && row.id < id.value)
  }

  function Admitted(table: set<Stamp>, cursor: Cursor): set<Stamp> {
    set r | r in table && Admits(cursor, r)
  }

  predicate Newest(rows: set<Stamp>, top: Stamp) {
    top in rows && forall r | r in rows :: r == top || Below(r, top)
  }

  lemma {:induction false} NewestExists(rows: set<Stamp>)
    requires rows != {}
    ensures exists top :: Newest(rows, top)
    decreases rows
  {
    var x :| x in rows;
    if rows == {x} {
      assert Newest(rows, x);
    } else {
      assert rows == (rows - {x}) + {x};
      NewestExists(rows - {x});
      var y :| Newest(rows - {x}, y);
      if Below(x, y) {
        assert Newest(rows, y);
      } else {
        assert x != y && Below(y, x);
        forall r | r in rows ensures r == x || Below(r, x) {
          if r != x { assert r in rows - {x}; }
        }
        assert Newest(rows, x);
      }
    }
  }

  /** ORDER BY created_at DESC, id DESC */
  ghost function Descending(rows: set<Stamp>): seq<Stamp>
    decreases rows
  {
    if rows == {} then []
    else
      NewestExists(rows);
      var top :| Newest(rows, top);
      [top] + Descending(rows - {top})
  }

  predicate IsDescending(rows: seq<Stamp>) {
    forall i, j | 0 <= i < j < |rows| :: Below(rows[j], rows[i])
  }

  // The list is strictly newest-first and has exactly the rows of the table.
  lemma {:induction false} DescendingLists(rows: set<Stamp>)
    ensures IsDescending(Descending(rows))
    ensures forall r :: r in Descending(rows) <==> r in rows
    ensures |Descending(rows)| == |rows|
    decreases rows
  {
    if rows != {} {
      NewestExists(rows);
      var list := Descending(rows);
      var top := list[0];
      assert Newest(rows, top) && list == [top] + Descending(rows - {top});
      DescendingLists(rows - {top});
    }
  }

  function Elements(rows: seq<Stamp>): set<Stamp> {
    set r | r in rows
  }

  // There is only one such list, so dropping a prefix's rows drops the prefix.
  lemma {:induction false} DescendingTail(rows: set<Stamp>, k: nat)
    requires k <= |Descending(rows)|
    ensures Descending(rows - Elements(Descending(rows)[..k])) == Descending(rows)[k..]
    decreases rows
  {
    var list := Descending(rows);
    if k == 0 {
      assert rows - Elements(list[..0]) == rows;
    } else {
      NewestExists(rows);
      var top := list[0];
      assert Newest(rows, top) && list == [top] + Descending(rows - {top});
      DescendingTail(rows - {top}, k - 1);
      assert list[..k] == [top] + Descending(rows - {top})[..k - 1];
      assert rows - Elements(list[..k])
          == rows - {top} - Elements(Descending(rows - {top})[..k - 1]);
    }
  }

  /** One page: the newest rows the cursor admits, up to the clamped limit. */
  ghost function Page(table: set<Stamp>, cursor: Cursor, limit: int): seq<Stamp> {
    var all := Descending(Admitted(table, cursor));
    if |all| <= Clamp(limit) then all else all[..Clamp(limit)]
  }

  function After(page: seq<Stamp>): Cursor
    requires page != []
  {
    var last := page[|page| - 1];
    Before(last.createdAt, Some(last.id))
  }

  // A cursor that admits a row admits every row after it.
  lemma AdmitsBelow(cursor: Cursor, last: Stamp, r: Stamp)
    ensures Admits(cursor, last) && Below(r, last) ==> Admits(cursor, r)
  {
  }

  // In a descending list the rows from a point on are those below the row before it.
  lemma PrefixAbove(all: seq<Stamp>, k: nat, r: Stamp)
    requires IsDescending(all) && 0 < k <= |all| && r in all
    ensures r in all[..k] <==> !Below(r, all[k - 1])
  {
    var i :| 0 <= i < |all| && all[i] == r;
    if i < k {
      assert all[..k][i] == r;
    } else {
      forall j | 0 <= j < k ensures all[j] != r { assert Below(all[i], all[j]); }
    }
  }

  lemma NextIsBelow(table: set<Stamp>, cursor: Cursor, page: seq<Stamp>, r: Stamp)
    requires page != [] && page[|page| - 1] in Admitted(table, cursor)
    ensures r in Admitted(table, After(page)) <==> r in Admitted(table, cursor) && Below(r, page[|page| - 1])
  {
    AdmitsBelow(cursor, page[|page| - 1], r);
  }

  // The rows the next cursor admits are the ones not read yet.
  lemma NextRows(table: set<Stamp>, cursor: Cursor, limit: int)
    requires Page(table, cursor, limit) != []
    ensures var page := Page(table, cursor, limit);
            Admitted(table, After(page)) == Admitted(table, cursor) - Elements(page)
  {
    var rows, page := Admitted(table, cursor), Page(table, cursor, limit);
    DescendingLists(rows);
    var all := Descending(rows);
    assert page == all[..|page|] && page[|page| - 1] == all[|page| - 1];
    forall r ensures r in Admitted(table, After(page)) <==> r in rows - Elements(page) {
      NextIsBelow(table, cursor, page, r);
      if r in rows { PrefixAbove(all, |page|, r); }
    }
  }

  /** Reading on until a page comes back short. */
  ghost function ReadAll(table: set<Stamp>, cursor: Cursor, limit: int): seq<Stamp>
    decreases |Admitted(table, cursor)|
  {
    var page := Page(table, cursor, limit);
    if |page| < Clamp(limit) then page
    else
      DescendingLists(Admitted(table, cursor));
      NextRows(table, cursor, limit);
      Shrinks(Admitted(table, cursor), page);
      page + ReadAll(table, After(page), limit)
  }

  lemma Shrinks(rows: set<Stamp>, page: seq<Stamp>)
    requires page != [] && forall r | r in page :: r in rows
    ensures |rows - Elements(page)| < |rows|
  {
    assert page[0] in rows && page[0] !in rows - Elements(page);
    Smaller(rows - Elements(page), rows);
  }

  lemma Smaller(a: set<Stamp>, b: set<Stamp>)
    requires a < b
    ensures |a| < |b|
  {
    assert b == a + (b - a);
    assert b - a != {};
  }

  lemma PageThenRest(rows: set<Stamp>, page: seq<Stamp>)
    requires |page| <= |Descending(rows)| && page == Descending(rows)[..|page|]
    ensures Descending(rows) == page + Descending(rows - Elements(page))
  {
    DescendingTail(rows, |page|);
    assert Descending(rows) == Descending(rows)[..|page|] + Descending(rows)[|page|..];
  }

  /** Whatever limit is asked for and however times tie, the pages put together are the
      whole list: nothing twice, nothing left out, newest first. */
  lemma {:induction false} PagesCoverList(table: set<Stamp>, cursor: Cursor, limit: int)
    ensures ReadAll(table, cursor, limit) == Descending(Admitted(table, cursor))
    decreases |Admitted(table, cursor)|
  {
    var rows, page := Admitted(table, cursor), Page(table, cursor, limit);
    if |page| == Clamp(limit) {
      DescendingLists(rows);
      NextRows(table, cursor, limit);
      Shrinks(rows, page);
      PagesCoverList(table, After(page), limit);
      PageThenRest(rows, page);
    }
  }

  lemma WholeListRead(table: set<Stamp>, limit: int)
    ensures ReadAll(table, Start, limit) == Descending(table)
    ensures |ReadAll(table, Start, limit)| == |table|
  {
    PagesCoverList(table, Start, limit);
    assert Admitted(table, Start) == table;
    DescendingLists(table);
  }

  /** A cursor with a time but no id goes on where the full cursor does exactly when no row
      tied with the last one is still unread. */
  lemma TimeOnlyCursorIff(table: set<Stamp>, last: Stamp)
    ensures Admitted(table, Before(last.createdAt, None)) == Admitted(table, Before(last.createdAt, Some(last.id)))
       <==> forall r | r in table && r.createdAt == last.createdAt :: r.id >= last.id
  {
    forall r | r in table && r.createdAt == last.createdAt && r.id < last.id
      ensures r in Admitted(table, Before(last.createdAt, Some(last.id)))
      ensures r !in Admitted(table, Before(last.createdAt, None))
    {
    }
  }

  // ---- paging by time alone ---------------------------------------------------------------

  // The cursor of a reader that passes on the time but not the id.
  function AfterTime(page: seq<Stamp>): Cursor
    requires page != []
  {
    Before(page[|page| - 1].createdAt, None)
  }

  // What such a cursor admits has not been read yet.
  lemma TimeRowsUnread(table: set<Stamp>, cursor: Cursor, limit: int)
    requires Page(table, cursor, limit) != []
    ensures Admitted(table, AfterTime(Page(table, cursor, limit)))
         <= Admitted(table, cursor) - Elements(Page(table, cursor, limit))
  {
    NextRows(table, cursor, limit);
  }

  lemma TimeShrinks(table: set<Stamp>, cursor: Cursor, limit: int)
    requires Page(table, cursor, limit) != []
    ensures |Admitted(table, AfterTime(Page(table, cursor, limit)))| < |Admitted(table, cursor)|
  {
    var rows, page := Admitted(table, cursor), Page(table, cursor, limit);
    DescendingLists(rows);
    TimeRowsUnread(table, cursor, limit);
    assert page[0] in rows && page[0] in Elements(page);
    Smaller(Admitted(table, AfterTime(page)), rows);
  }

  ghost function ReadByTime(table: set<Stamp>, cursor: Cursor, limit: int): seq<Stamp>
    decreases |Admitted(table, cursor)|
  {
    var page := Page(table, cursor, limit);
    if |page| < Clamp(limit) then page
    else
      TimeShrinks(table, cursor, limit);
      page + ReadByTime(table, AfterTime(page), limit)
  }

  // No page but the last ends with a row that an unread one ties with.
  ghost predicate NoSplitTie(table: set<Stamp>, cursor: Cursor, limit: int)
    decreases |Admitted(table, cursor)|
  {
    var page := Page(table, cursor, limit);
    |page| < Clamp(limit) ||
    (TimeShrinks(table, cursor, limit);
     && Unsplit(table, page[|page| - 1])
     && NoSplitTie(table, AfterTime(page), limit))
  }

  predicate Unsplit(table: set<Stamp>, last: Stamp) {
    forall r | r in table && r.createdAt == last.createdAt :: r.id >= last.id
  }

  lemma {:induction false} ReadByTimeAdmitted(table: set<Stamp>, cursor: Cursor, limit: int)
    ensures forall r | r in ReadByTime(table, cursor, limit) :: r in Admitted(table, cursor)
    decreases |Admitted(table, cursor)|
  {
    var page := Page(table, cursor, limit);
    DescendingLists(Admitted(table, cursor));
    if |page| == Clamp(limit) {
      TimeShrinks(table, cursor, limit);
      TimeRowsUnread(table, cursor, limit);
      ReadByTimeAdmitted(table, AfterTime(page), limit);
    }
  }

  // A row that ties with the end of a page and comes after it is never read.
  lemma SplitTieLost(table: set<Stamp>, cursor: Cursor, limit: int, r: Stamp)
    requires |Page(table, cursor, limit)| == Clamp(limit)
    requires var page := Page(table, cursor, limit);
             r in table && r.createdAt == page[|page| - 1].createdAt && r.id < page[|page| - 1].id
    ensures r in Admitted(table, cursor) && r !in ReadByTime(table, cursor, limit)
  {
    var page := Page(table, cursor, limit);
    NextRows(table, cursor, limit);
    TimeShrinks(table, cursor, limit);
    assert r in Admitted(table, After(page));
    ReadByTimeAdmitted(table, AfterTime(page), limit);
    assert r !in page && r !in Admitted(table, AfterTime(page));
  }

  // An unsplit page leaves the same rest to both cursors.
  lemma UnsplitPage(table: set<Stamp>, cursor: Cursor, limit: int, rest: seq<Stamp>)
    requires |Page(table, cursor, limit)| == Clamp(limit)
    requires Unsplit(table, Page(table, cursor, limit)[|Page(table, cursor, limit)| - 1])
    ensures var page := Page(table, cursor, limit);
            page + rest == Descending(Admitted(table, cursor)) <==> rest == Descending(Admitted(table, AfterTime(page)))
  {
    var rows, page := Admitted(table, cursor), Page(table, cursor, limit);
    DescendingLists(rows);
    NextRows(table, cursor, limit);
    TimeOnlyCursorIff(table, page[|page| - 1]);
    PageThenRest(rows, page);
    SameTail(page, rest, Descending(Admitted(table, AfterTime(page))));
  }

  lemma SplitPage(table: set<Stamp>, cursor: Cursor, limit: int)
    requires |Page(table, cursor, limit)| == Clamp(limit)
    requires !Unsplit(table, Page(table, cursor, limit)[|Page(table, cursor, limit)| - 1])
    ensures ReadByTime(table, cursor, limit) != Descending(Admitted(table, cursor))
  {
    var last := Page(table, cursor, limit)[|Page(table, cursor, limit)| - 1];
    var r :| r in table && r.createdAt == last.createdAt && r.id < last.id;
    SplitTieLost(table, cursor, limit, r);
    DescendingLists(Admitted(table, cursor));
  }

  // A full page is followed by the rest.
  lemma FullPageRead(table: set<Stamp>, cursor: Cursor, limit: int, page: seq<Stamp>)
    requires page == Page(table, cursor, limit) && |page| == Clamp(limit)
    ensures ReadByTime(table, cursor, limit) == page + ReadByTime(table, AfterTime(page), limit)
    ensures NoSplitTie(table, cursor, limit)
       <==> Unsplit(table, page[|page| - 1]) && NoSplitTie(table, AfterTime(page), limit)
  {
    TimeShrinks(table, cursor, limit);
  }

  // One full page, and what is known of the rest.
  lemma FullPageIff(table: set<Stamp>, cursor: Cursor, limit: int, page: seq<Stamp>, rest: seq<Stamp>, all: seq<Stamp>,
                    unsplit: bool)
    requires page == Page(table, cursor, limit) && |page| == Clamp(limit) && all == Descending(Admitted(table, cursor))
    requires ReadByTime(table, cursor, limit) == page + rest
    requires rest == Descending(Admitted(table, AfterTime(page))) <==> unsplit
    ensures page + rest == all <==> Unsplit(table, page[|page| - 1]) && unsplit
  {
    if Unsplit(table, page[|page| - 1]) {
      UnsplitPage(table, cursor, limit, rest);
    } else {
      SplitPage(table, cursor, limit);
    }
  }

  /** Paging by time alone reads the whole list if and only if no full page ends inside a tie. */
  lemma {:induction false} TimePagesCoverIff(table: set<Stamp>, cursor: Cursor, limit: int)
    ensures ReadByTime(table, cursor, limit) == Descending(Admitted(table, cursor))
      <==> NoSplitTie(table, cursor, limit)
    decreases |Admitted(table, cursor)|
  {
    var page := Page(table, cursor, limit);
    if |page| == Clamp(limit) {
      TimeShrinks(table, cursor, limit);
      TimePagesCoverIff(table, AfterTime(page), limit);
      FullPageRead(table, cursor, limit, page);
      FullPageIff(table, cursor, limit, page, ReadByTime(table, AfterTime(page), limit),
                  Descending(Admitted(table, cursor)), NoSplitTie(table, AfterTime(page), limit));
    }
  }

  lemma SameTail<T>(head: seq<T>, a: seq<T>, b: seq<T>)
    ensures head + a == head + b <==> a == b
  {
    assert (head + a)[|head|..] == a && (head + b)[|head|..] == b;
  }

  const Tied: set<Stamp> := {Stamp(5, 1), Stamp(5, 2)}

  /** Two rows of the same time, read one at a time by time alone: the second is lost. */
  lemma TiedRowLost()
    ensures Stamp(5, 1) in Tied && Stamp(5, 1) !in ReadByTime(Tied, Start, 1)
  {
    assert Admitted(Tied, Start) == Tied;
    DescendingLists(Tied);
    var all := Descending(Tied);
    assert |Tied - {Stamp(5, 1)}| == 1;
    assert |all| == 2 && all[0] in Tied && all[1] in Tied && Below(all[1], all[0]);
    assert Page(Tied, Start, 1) == [Stamp(5, 2)];
    SplitTieLost(Tied, Start, 1, Stamp(5, 1));
  }
}
