/** An account's history read page by page. */
module HistoryPages {
  import opened Types
  import opened Sums
  import opened Invariant
  import opened History
  import opened Paging

  function StampOf(id: TransferId, row: Transfer): Stamp {
    Stamp(row.createdAt, id)
  }

  function Stamps(transfers: map<TransferId, Transfer>): set<Stamp> {
    set id | id in transfers :: StampOf(id, transfers[id])
  }

  // The transfers whose rows the history query lists.
  function Listed(db: DB, a: AccountId): map<TransferId, Transfer> {
    map id | id in db.transfers && Concerns(db, a, id) :: db.transfers[id]
  }

  // The signed amounts of the rows shown for a list of transfers, added up.
  function Shown(db: DB, a: AccountId, list: seq<Stamp>): int
    requires a in db.accounts && forall r | r in list :: r.id in db.transfers
  {
    if list == [] then 0 else SumOf(RowsFor(db, a, list[0].id)) + Shown(db, a, list[1..])
  }

  // Rows that count for nothing may be left out of a sum.
  lemma {:induction false} SumSubset<K, V>(part: map<K, V>, whole: map<K, V>, f: (K, V) -> int)
    requires forall k | k in part :: k in whole && part[k] == whole[k]
    requires forall k | k in whole && k !in part :: f(k, whole[k]) == 0
    ensures Sum(part, f) == Sum(whole, f)
    decreases |whole|
  {
    if whole == map[] {
      assert part == map[];
    } else {
      var k :| k in whole;
      SumOpen(whole, f, k);
      if k in part {
        SumOpen(part, f, k);
        SumSubset(part - {k}, whole - {k}, f);
      } else {
        SumSubset(part, whole - {k}, f);
      }
    }
  }

  lemma StampsWithout(part: map<TransferId, Transfer>, top: Stamp)
    requires top in Stamps(part)
    ensures top.id in part && top == StampOf(top.id, part[top.id])
    ensures Stamps(part - {top.id}) == Stamps(part) - {top}
  {
    forall r ensures r in Stamps(part - {top.id}) <==> r in Stamps(part) - {top} {
      if r in Stamps(part) && r != top {
        assert r.id in part - {top.id} && r == StampOf(r.id, (part - {top.id})[r.id]);
      }
    }
  }

  // The list of a set of transfers shows what they add up to.
  lemma {:induction false} ShownAddsUp(db: DB, a: AccountId, part: map<TransferId, Transfer>)
    requires a in db.accounts && forall id | id in part :: id in db.transfers && part[id] == db.transfers[id]
    ensures forall r | r in Descending(Stamps(part)) :: r.id in db.transfers
    ensures Shown(db, a, Descending(Stamps(part))) == Sum(part, SignedRows(db, a))
    decreases |part|
  {
    DescendingLists(Stamps(part));
    if part == map[] {
      assert Stamps(part) == {};
    } else {
      var some :| some in part;
      assert StampOf(some, part[some]) in Stamps(part);
      var list := Descending(Stamps(part));
      var top := list[0];
      assert Newest(Stamps(part), top) && list == [top] + Descending(Stamps(part) - {top});
      StampsWithout(part, top);
      ShownAddsUp(db, a, part - {top.id});
      SumOpen(part, SignedRows(db, a), top.id);
      assert list[1..] == Descending(Stamps(part - {top.id}));
      assert Find(db.transfers, top.id) == Some(part[top.id]);
    }
  }

  lemma ListedAddsUp(db: DB, a: AccountId)
    requires Inv(db) && a in db.accounts && a in db.balances
    ensures Sum(Listed(db, a), SignedRows(db, a)) == db.balances[a].ledger
  {
    forall id | id in db.transfers && id !in Listed(db, a) ensures SignedRows(db, a)(id, db.transfers[id]) == 0 {
      OnceEach(db, a, id);
      assert !Concerns(db, a, id);
      assert RowsFor(db, a, id) == [];
      SumOfOne(RowsFor(db, a, id));
    }
    SumSubset(Listed(db, a), db.transfers, SignedRows(db, a));
    HistoryAddsUp(db, a);
  }

  /** Read page by page, with any limit and any ties, an account's history shows each transfer
      that concerns it once, newest first, and the signed amounts add up to its ledger. */
  lemma PagesAddUp(db: DB, a: AccountId, limit: int)
    requires Inv(db) && a in db.accounts
    ensures a in db.balances
    ensures var pages := ReadAll(Stamps(Listed(db, a)), Start, limit);
            && IsDescending(pages)
            && (forall r ::
                  r in pages
                  <==> r.id in db.transfers && Concerns(db, a, r.id) && r.createdAt == db.transfers[r.id].createdAt)
            && (forall r | r in pages :: |RowsFor(db, a, r.id)| == 1)
            && Shown(db, a, pages) == db.balances[a].ledger
  {
    WholeListRead(Stamps(Listed(db, a)), limit);
    DescendingLists(Stamps(Listed(db, a)));
    ShownAddsUp(db, a, Listed(db, a));
    ListedAddsUp(db, a);
    forall r ensures r in Stamps(Listed(db, a))
      <==> r.id in db.transfers && Concerns(db, a, r.id) && r.createdAt == db.transfers[r.id].createdAt
    {
      if r.id in db.transfers && Concerns(db, a, r.id) {
        assert StampOf(r.id, Listed(db, a)[r.id]) in Stamps(Listed(db, a));
      }
    }
    forall r | r in ReadAll(Stamps(Listed(db, a)), Start, limit) ensures |RowsFor(db, a, r.id)| == 1 {
      OnceEach(db, a, r.id);
    }
  }
}
