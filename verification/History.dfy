/** An account's transaction history: every transfer that concerns it once, with signed
    amounts that add up to its ledger. */
module History {
  import opened Types
  import opened Ledger
  import opened Transfers
  import opened Sums
  import opened Invariant
  import opened Preservation

  datatype Row = Row(transfer: TransferId, side: Side, signed: int, counterparty: Option<AccountId>)

  function On(postings: seq<Posting>, a: AccountId): seq<Posting> {
    if postings == [] then []
    else (if postings[0].account == a then [postings[0]] else []) + On(postings[1..], a)
  }

  // LEFT JOIN: a missing match is one empty match.
  function OrNone(postings: seq<Posting>): seq<Option<Posting>> {
    if postings == [] then [None] else seq(|postings|, i requires 0 <= i < |postings| => Some(postings[i]))
  }

  function PostingsOf(db: DB, row: Transfer): seq<Posting> {
    if row.journal.Some? && row.journal.value in db.journals then db.journals[row.journal.value].postings else []
  }

  function SignedFor(row: Transfer, normal: Side, own: Option<Posting>): int {
    if row.status != Succeeded || own.None? then 0
    else if normal == own.value.side then own.value.amount
    else -own.value.amount
  }

  function SideFor(row: Transfer, normal: Side, own: Option<Posting>): Side {
    if row.status == Succeeded && own.Some? then (if normal == own.value.side then Credit else Debit)
    else if row.direction == Inbound then Credit
    else Debit
  }

  function CounterpartyShown(db: DB, other: Option<Posting>): Option<AccountId> {
    if other.Some? && other.value.account in db.accounts && db.accounts[other.value.account].kind == Customer
    then Some(other.value.account) else None
  }

  // One row for each own posting, joined with each posting on another account.
  function Join(db: DB, id: TransferId, normal: Side, own: seq<Option<Posting>>, others: seq<Option<Posting>>): seq<Row>
    requires id in db.transfers
  {
    if own == [] then []
    else
      seq(|others|, i requires 0 <= i < |others| =>
        Row(id, SideFor(db.transfers[id], normal, own[0]), SignedFor(db.transfers[id], normal, own[0]),
          CounterpartyShown(db, others[i])))
      + Join(db, id, normal, own[1..], others)
  }

  /** The rows the history query yields for one transfer. */
  function RowsFor(db: DB, a: AccountId, id: TransferId): seq<Row>
    requires a in db.accounts && id in db.transfers
  {
    var row := db.transfers[id];
    var own := On(PostingsOf(db, row), a);
    if row.account == a || own != [] then
      Join(db, id, db.accounts[a].normal, OrNone(own), OrNone(Others(PostingsOf(db, row), a)))
    else []
  }

  predicate Concerns(db: DB, a: AccountId, id: TransferId)
    requires id in db.transfers
  {
    db.transfers[id].account == a || exists p | p in PostingsOf(db, db.transfers[id]) :: p.account == a
  }

  lemma BalancedSides(journal: Journal, a: AccountId)
    requires Balanced(journal)
    ensures var ps := journal.postings;
            && On(ps, a) == (if ps[0].account == a then [ps[0]] else if ps[1].account == a then [ps[1]] else [])
            && Others(ps, a) == (if ps[0].account == a then [ps[1]] else if ps[1].account == a then [ps[0]] else ps)
  {
    var ps := journal.postings;
    assert ps[1..] == [ps[1]];
    assert ps[1..][1..] == [];
    assert On(ps[1..], a) == if ps[1].account == a then [ps[1]] else [];
    assert Others(ps[1..], a) == if ps[1].account != a then [ps[1]] else [];
    assert ps == [ps[0]] + [ps[1]];
  }

  lemma JoinOne(db: DB, id: TransferId, normal: Side, own: seq<Option<Posting>>, others: seq<Option<Posting>>)
    requires id in db.transfers && |own| == 1 && |others| == 1
    ensures Join(db, id, normal, own, others)
         == [Row(id, SideFor(db.transfers[id], normal, own[0]), SignedFor(db.transfers[id], normal, own[0]),
           CounterpartyShown(db, others[0]))]
  {
    assert own[1..] == [];
    assert Join(db, id, normal, own[1..], others) == [];
  }

  // What the two postings of a posted transfer are to an account.
  lemma PostedSides(db: DB, a: AccountId, id: TransferId, ps: seq<Posting>, normal: Side)
    requires RowsOk(db) && id in db.transfers && db.transfers[id].journal.Some?
    requires ps == PostingsOf(db, db.transfers[id])
    ensures |ps| == 2 && ps[0].account != ps[1].account
    ensures Concerns(db, a, id) <==> ps[0].account == a || ps[1].account == a
    ensures On(ps, a) == (if ps[0].account == a then [ps[0]] else if ps[1].account == a then [ps[1]] else [])
    ensures Concerns(db, a, id) ==> |Others(ps, a)| == 1
    ensures PostingsEffect(ps, a, normal)
         == (if On(ps, a) == [] then 0 else Signed(normal, On(ps, a)[0].side, On(ps, a)[0].amount))
  {
    var row := db.transfers[id];
    assert RowOk(db, id);
    BalancedSides(db.journals[row.journal.value], a);
    PairEffect(db.journals[row.journal.value], a, normal);
    assert ps[0] in ps && ps[1] in ps;
  }

  // What a transfer that was not posted is to an account.
  lemma UnpostedSides(db: DB, a: AccountId, id: TransferId)
    requires RowsOk(db) && id in db.transfers && db.transfers[id].journal.None?
    ensures PostingsOf(db, db.transfers[id]) == [] && db.transfers[id].status != Succeeded
    ensures Concerns(db, a, id) <==> db.transfers[id].account == a
  {
    assert RowOk(db, id);
  }

  /** A transfer that concerns the account appears exactly once, one that does not appears
      not at all, and the one row carries what the transfer's journal did to the account. */
  lemma OnceEach(db: DB, a: AccountId, id: TransferId)
    requires RowsOk(db) && a in db.accounts && id in db.transfers
    ensures |RowsFor(db, a, id)| == (if Concerns(db, a, id) then 1 else 0)
    ensures Concerns(db, a, id) ==>
      && RowsFor(db, a, id)[0].transfer == id
      && RowsFor(db, a, id)[0].signed
         == PostingsEffect(PostingsOf(db, db.transfers[id]), a, db.accounts[a].normal)
    ensures !Concerns(db, a, id) ==> PostingsEffect(PostingsOf(db, db.transfers[id]), a, db.accounts[a].normal) == 0
  {
    var ps, normal := PostingsOf(db, db.transfers[id]), db.accounts[a].normal;
    if db.transfers[id].journal.Some? {
      assert RowOk(db, id);
      PostedSides(db, a, id, ps, normal);
    } else {
      UnpostedSides(db, a, id);
    }
    if Concerns(db, a, id) { JoinOne(db, id, normal, OrNone(On(ps, a)), OrNone(Others(ps, a))); }
  }

  /** The one row shows as a credit exactly when a posted transfer raised the account's ledger,
      or one not posted is inbound, and names the other account exactly if it is a customer's. */
  lemma SideTells(db: DB, a: AccountId, id: TransferId)
    requires RowsOk(db) && a in db.accounts && id in db.transfers && Concerns(db, a, id)
    ensures |RowsFor(db, a, id)| == 1
    ensures var row, shown := db.transfers[id], RowsFor(db, a, id)[0];
            && (row.status == Succeeded ==> (shown.side == Credit <==> shown.signed > 0) && shown.signed != 0)
            && (row.status != Succeeded ==>
                (shown.side == Credit <==> row.direction == Inbound) && shown.signed == 0 && shown.counterparty == None)
            && (row.status == Succeeded ==>
                && Posts(db, id) && |JournalOf(db, id).postings| == 2
                && var ps := JournalOf(db, id).postings;
                   var other := if ps[0].account == a then ps[1].account else ps[0].account;
                   && other in db.accounts
                   && shown.counterparty == if db.accounts[other].kind == Customer then Some(other) else None)
  {
    var row := db.transfers[id];
    assert RowOk(db, id);
    OnceEach(db, a, id);
    var ps := PostingsOf(db, row);
    if row.journal.Some? {
      var journal := db.journals[row.journal.value];
      assert JournalOk(db, row.journal.value);
      BalancedSides(journal, a);
      PairEffect(journal, a, db.accounts[a].normal);
    }
    JoinOne(db, id, db.accounts[a].normal, OrNone(On(ps, a)), OrNone(Others(ps, a)));
  }

  // ---- the signed amounts add up ------------------------------------------------------

  ghost function SignedRows(db: DB, a: AccountId): (TransferId, Transfer) -> int {
    (id: TransferId, row: Transfer) =>
      if a in db.accounts && Find(db.transfers, id) == Some(row) then SumOf(RowsFor(db, a, id)) else 0
  }

  function SumOf(rows: seq<Row>): int {
    if rows == [] then 0 else rows[0].signed + SumOf(rows[1..])
  }

  lemma SumOfOne(rows: seq<Row>)
    ensures SumOf([]) == 0
    ensures |rows| == 1 ==> SumOf(rows) == rows[0].signed
  {
    if |rows| == 1 { assert rows[1..] == []; }
  }

  ghost function TransferEffect(journals: map<JournalId, Journal>, a: AccountId, normal: Side): (TransferId,
                                Transfer) -> int {
    (id: TransferId, row: Transfer) =>
      if row.journal.Some? && row.journal.value in journals
      then PostingsEffect(journals[row.journal.value].postings, a, normal) else 0
  }

  // Journals pair off with the transfers that posted them.
  predicate Paired(transfers: map<TransferId, Transfer>, journals: map<JournalId, Journal>) {
    && (forall j | j in journals ::
        journals[j].transfer in transfers && transfers[journals[j].transfer].journal == Some(j))
    && (forall id | id in transfers && transfers[id].journal.Some? ::
          transfers[id].journal.value in journals && journals[transfers[id].journal.value].transfer == id)
  }

  /** Summing over transfers what their journals do is summing over the journals. */
  lemma {:induction false} SumByTransfer(transfers: map<TransferId, Transfer>, journals: map<JournalId, Journal>,
                                         a: AccountId, normal: Side)
    requires Paired(transfers, journals)
    ensures Sum(transfers, TransferEffect(journals, a, normal)) == Sum(journals, Effect(a, normal))
    decreases |transfers|
  {
    if transfers == map[] {
      assert journals == map[];
    } else {
      var id :| id in transfers;
      var rest := transfers - {id};
      SumOpen(transfers, TransferEffect(journals, a, normal), id);
      var j := transfers[id].journal;
      var fewer := if j.Some? then journals - {j.value} else journals;
      SumByTransfer(rest, fewer, a, normal);
      forall t | t in rest
        ensures TransferEffect(journals, a, normal)(t, rest[t]) == TransferEffect(fewer, a, normal)(t, rest[t])
      {
      }
      SumSame(rest, TransferEffect(journals, a, normal), TransferEffect(fewer, a, normal));
      if j.Some? { SumOpen(journals, Effect(a, normal), j.value); }
    }
  }

  lemma RowsArePaired(db: DB)
    requires RowsOk(db)
    ensures Paired(db.transfers, db.journals)
  {
    forall j | j in db.journals
      ensures db.journals[j].transfer in db.transfers && db.transfers[db.journals[j].transfer].journal == Some(j)
    {
      assert JournalOk(db, j);
    }
    forall id | id in db.transfers && db.transfers[id].journal.Some?
      ensures db.transfers[id].journal.value in db.journals
      ensures db.journals[db.transfers[id].journal.value].transfer == id
    {
      assert RowOk(db, id);
    }
  }

  /** In every reachable state the signed amounts of an account's full history add up to
      its cached ledger. */
  lemma HistoryAddsUp(db: DB, a: AccountId)
    requires Inv(db) && a in db.accounts
    ensures a in db.balances && Sum(db.transfers, SignedRows(db, a)) == db.balances[a].ledger
  {
    var normal := db.accounts[a].normal;
    forall id | id in db.transfers
      ensures SignedRows(db, a)(id, db.transfers[id]) == TransferEffect(db.journals, a, normal)(id, db.transfers[id])
    {
      OnceEach(db, a, id);
      SumOfOne(RowsFor(db, a, id));
      assert RowOk(db, id);
      assert Find(db.transfers, id) == Some(db.transfers[id]);
    }
    SumSame(db.transfers, SignedRows(db, a), TransferEffect(db.journals, a, normal));
    RowsArePaired(db);
    SumByTransfer(db.transfers, db.journals, a, normal);
    assert MoneyAt(db, a);
  }
}
