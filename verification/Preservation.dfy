/** Every change a transaction can commit keeps the invariant. */
module Preservation {
  import opened Types
  import opened Policy
  import opened Ledger
  import opened Transfers
  import opened Sums
  import opened Invariant

  // ---- money ---------------------------------------------------------------

  /** Posting moves each ledger by what the postings say, and each available
      balance too unless its hold is being consumed. */
  lemma {:induction false} PostAllEffect(db: DB, postings: seq<Posting>, held: Option<AccountId>, journal: JournalId,
                                         a: AccountId)
    requires AccountsOk(db) && a in db.accounts
    ensures PostAll(db.accounts, db.balances, postings, held, journal).Keys == db.balances.Keys
    ensures var after := PostAll(db.accounts, db.balances, postings, held, journal)[a];
            var effect := PostingsEffect(postings, a, db.accounts[a].normal);
            && after.ledger == db.balances[a].ledger + effect
            && after.available == db.balances[a].available + (if held == Some(a) then 0 else effect)
  {
    if postings != [] {
      PostAllEffect(db, postings[..|postings| - 1], held, journal, a);
    }
  }

  lemma PairEffect(journal: Journal, a: AccountId, normal: Side)
    requires Balanced(journal)
    ensures PostingsEffect(journal.postings, a, normal)
         == (if a == journal.postings[0].account then Signed(normal, Debit, journal.amount)
             else if a == journal.postings[1].account then Signed(normal, Credit, journal.amount) else 0)
  {
    var ps := journal.postings;
    assert ps[..1] == [ps[0]];
    assert ps[..1][..0] == [];
    assert PostingsEffect(ps[..1], a, normal)
        == if ps[0].account == a then Signed(normal, Debit, journal.amount) else 0;
  }

  function EntryEffect(db: DB, entry: Option<Entry>, a: AccountId): int
    requires a in db.accounts
  {
    if entry.Some? then PostingsEffect(entry.value.journal.postings, a, db.accounts[a].normal) else 0
  }

  lemma PostEntryEffect(db: DB, entry: Option<Entry>, held: Option<AccountId>, a: AccountId)
    requires AccountsOk(db) && a in db.accounts
    ensures PostEntry(db, entry, held).Keys == db.balances.Keys
    ensures PostEntry(db, entry, held)[a].ledger == db.balances[a].ledger + EntryEffect(db, entry, a)
    ensures PostEntry(db, entry, held)[a].available
         == db.balances[a].available + (if held == Some(a) then 0 else EntryEffect(db, entry, a))
  {
    if entry.Some? {
      PostAllEffect(db, entry.value.journal.postings, held, entry.value.id, a);
    }
  }

  lemma PostedAfter(journals: map<JournalId, Journal>, entry: Option<Entry>, a: AccountId, normal: Side)
    requires entry.Some? ==> entry.value.id !in journals
    ensures Sum(WithEntry(journals, entry), Effect(a, normal))
         == Sum(journals, Effect(a, normal))
            + (if entry.Some? then PostingsEffect(entry.value.journal.postings, a, normal) else 0)
  {
    if entry.Some? {
      SumPut(journals, Effect(a, normal), entry.value.id, entry.value.journal);
    }
  }

  // What an action on a transfer's hold does to the amount held on an account.
  function HoldMove(row: Transfer, hold: HoldAction, a: AccountId): int {
    if row.account != a then 0
    else match hold
      case KeepHold => 0
      case CreateHold => row.amount
      case ConsumeHold => -row.amount
      case ReleaseHold => -row.amount
  }

  predicate HoldReady(holds: map<TransferId, Hold>, id: TransferId, row: Transfer, hold: HoldAction) {
    && (hold == CreateHold ==> id !in holds)
    && (hold == ConsumeHold || hold == ReleaseHold ==>
        id in holds && holds[id].status == Active && holds[id].account == row.account && holds[id].amount == row.amount)
  }

  lemma HeldAfter(holds: map<TransferId, Hold>, id: TransferId, row: Transfer, hold: HoldAction, a: AccountId)
    requires HoldReady(holds, id, row, hold)
    ensures Sum(ApplyHold(holds, id, row, hold), ActiveOn(a)) == Sum(holds, ActiveOn(a)) + HoldMove(row, hold, a)
  {
    match hold
    case KeepHold =>
    case CreateHold => SumPut(holds, ActiveOn(a), id, HoldFor(row));
    case ConsumeHold => SumPut(holds, ActiveOn(a), id, holds[id].(status := Consumed));
    case ReleaseHold => SumPut(holds, ActiveOn(a), id, holds[id].(status := Released));
  }

  // The balance of one account after an entry and a hold action.
  lemma MovedBalance(db: DB, id: TransferId, row: Transfer, entry: Option<Entry>, hold: HoldAction, a: AccountId)
    requires AccountsOk(db) && a in db.accounts && row.account in db.accounts
    requires HoldReady(db.holds, id, row, hold)
    ensures var after := ApplyHoldBalance(db, PostEntry(db, entry, HeldAccount(row, hold)), id, row, hold);
            && after.Keys == db.balances.Keys
            && after[a].ledger == db.balances[a].ledger + EntryEffect(db, entry, a)
            && after[a].available
               == db.balances[a].available
                  + (if hold == ConsumeHold && a == row.account then 0
                     else EntryEffect(db, entry, a) - HoldMove(row, hold, a))
  {
    PostEntryEffect(db, entry, HeldAccount(row, hold), a);
  }

  // The tables after an insert or an advance, as far as money is concerned.
  predicate MoneyMoved(db: DB, next: DB, id: TransferId, row: Transfer, entry: Option<Entry>, hold: HoldAction) {
    && next.accounts == db.accounts
    && next.journals == WithEntry(db.journals, entry)
    && next.balances == ApplyHoldBalance(db, PostEntry(db, entry, HeldAccount(row, hold)), id, row, hold)
    && next.holds == ApplyHold(db.holds, id, row, hold)
    && next.liens == db.liens
  }

  /** The cached balances still agree with postings and holds exactly when a consumed
      hold's account is one whose ledger the entry lowers by the amount held. */
  lemma MovedMoney(db: DB, next: DB, id: TransferId, row: Transfer, entry: Option<Entry>, hold: HoldAction,
                   a: AccountId)
    requires AccountsOk(db) && a in db.accounts && row.account in db.accounts && MoneyAt(db, a)
    requires entry.Some? ==> entry.value.id !in db.journals
    requires HoldReady(db.holds, id, row, hold)
    requires MoneyMoved(db, next, id, row, entry, hold)
    ensures next.balances.Keys == db.balances.Keys
    ensures MoneyAt(next, a) <==> (hold == ConsumeHold && a == row.account ==> EntryEffect(db, entry, a) == -row.amount)
  {
    MovedBalance(db, id, row, entry, hold, a);
    PostedAfter(db.journals, entry, a, db.accounts[a].normal);
    HeldAfter(db.holds, id, row, hold, a);
  }

  // An outbound entry lowers its account's ledger exactly when the account is credit-normal.
  lemma OutboundEffect(db: DB, row: Transfer, entry: Option<Entry>)
    requires row.account in db.accounts && entry.Some? && Moves(entry.value.journal, row) && row.direction == Outbound
    ensures EntryEffect(db, entry, row.account) == -row.amount <==> db.accounts[row.account].normal == Credit
  {
    PairEffect(entry.value.journal, row.account, db.accounts[row.account].normal);
  }

  lemma TransferChangeMoney(db: DB, next: DB, id: TransferId, row: Transfer, entry: Option<Entry>, hold: HoldAction)
    requires AccountsOk(db) && MoneyOk(db) && row.account in db.accounts
    requires HoldReady(db.holds, id, row, hold)
    requires entry.Some? ==> entry.value.id !in db.journals
    requires hold == ConsumeHold ==>
      entry.Some? && Moves(entry.value.journal, row) && row.direction == Outbound
        && db.accounts[row.account].normal == Credit
    requires MoneyMoved(db, next, id, row, entry, hold)
    ensures AccountsOk(next) && MoneyOk(next)
  {
    if hold == ConsumeHold { OutboundEffect(db, row, entry); }
    MovedBalance(db, id, row, entry, hold, row.account);
    forall a | a in next.accounts ensures MoneyAt(next, a) {
      assert MoneyAt(db, a);
      MovedMoney(db, next, id, row, entry, hold, a);
    }
  }

  // ---- rows ------------------------------------------------------------------

  // Accounts keep their kind and side, and journals are append-only.
  predicate Extends(db: DB, next: DB) {
    && db.accounts.Keys <= next.accounts.Keys
    && (forall a | a in db.accounts ::
        next.accounts[a].normal == db.accounts[a].normal && next.accounts[a].kind == db.accounts[a].kind)
    && db.journals.Keys <= next.journals.Keys
    && (forall j | j in db.journals :: next.journals[j] == db.journals[j])
  }

  lemma RowFrame(db: DB, next: DB, id: TransferId)
    requires Extends(db, next) && id in db.transfers && RowOk(db, id)
    requires id in next.transfers && next.transfers[id] == db.transfers[id]
    ensures RowOk(next, id)
  {
  }

  lemma JournalFrame(db: DB, next: DB, j: JournalId)
    requires Extends(db, next) && j in db.journals && JournalOk(db, j)
    requires db.journals[j].transfer in next.transfers && next.transfers[db.journals[j].transfer].journal == Some(j)
    ensures JournalOk(next, j)
  {
  }

  lemma HoldFrame(db: DB, next: DB, id: TransferId)
    requires Extends(db, next) && id in db.holds && HoldOk(db, id)
    requires id in next.holds && next.holds[id] == db.holds[id]
    requires id in next.transfers && next.transfers[id] == db.transfers[id]
    ensures HoldOk(next, id)
  {
  }

  // A transfer that has posted keeps its journal, account, direction and reversal link.
  predicate KeepsPosted(db: DB, next: DB, id: TransferId) {
    id in db.transfers && db.transfers[id].journal.Some? ==>
      && id in next.transfers
      && next.transfers[id] == db.transfers[id]
  }

  lemma ReversalFrame(db: DB, next: DB, o: TransferId)
    requires Extends(db, next) && o in db.reversals && ReversalOk(db, o)
    requires o in next.reversals && next.reversals[o] == db.reversals[o]
    requires KeepsPosted(db, next, o) && KeepsPosted(db, next, db.reversals[o])
    ensures ReversalOk(next, o)
  {
  }

  // The transfer rows and the key index after an insert.
  predicate RowInserted(db: DB, next: DB, id: TransferId, row: Transfer) {
    && id !in db.transfers
    && next.transfers == db.transfers[id := row]
    && next.byKey == db.byKey[row.key := id]
  }

  lemma InsertKeepsRows(db: DB, next: DB, id: TransferId, row: Transfer, entry: Option<Entry>)
    requires RowsOk(db) && Extends(db, next)
    requires RowInserted(db, next, id, row)
    requires next.accounts == db.accounts && next.journals == WithEntry(db.journals, entry)
    requires row.account in db.accounts && row.amount > 0 && StatusesOk(row) && EntryOk(db, id, row, entry)
    requires (row.direction == Reversal <==> row.reversalOf.Some?) && (row.reversalOf.Some? ==> row.status == Succeeded)
    ensures RowsOk(next)
  {
    forall j | j in next.journals ensures JournalOk(next, j) {
      if j in db.journals {
        assert JournalOk(db, j);
        JournalFrame(db, next, j);
      }
    }
    forall i | i in next.transfers ensures RowOk(next, i) {
      if i != id {
        assert RowOk(db, i);
        RowFrame(db, next, i);
      }
    }
  }

  lemma InsertKeepsKeys(db: DB, next: DB, id: TransferId, row: Transfer)
    requires KeysOk(db) && RowInserted(db, next, id, row) && row.key !in db.byKey
    ensures KeysOk(next)
  {
    forall k | k in next.byKey ensures KeyOk(next, k) {
      if k != row.key { assert KeyOk(db, k); }
    }
    forall i | i in next.transfers ensures Keyed(next, i) {
      if i != id { assert Keyed(db, i); }
    }
  }

  lemma HoldsHaveTransfers(db: DB)
    requires HoldsOk(db)
    ensures db.holds.Keys <= db.transfers.Keys
  {
    forall i | i in db.holds ensures i in db.transfers { assert HoldOk(db, i); }
  }

  lemma InsertKeepsHolds(db: DB, next: DB, id: TransferId, row: Transfer, hold: HoldAction)
    requires HoldsOk(db) && Extends(db, next) && RowInserted(db, next, id, row)
    requires hold == CreateHold || hold == KeepHold
    requires next.holds == ApplyHold(db.holds, id, row, hold)
    requires hold == CreateHold <==> row.status == Pending && HoldsFunds(row)
    requires hold == CreateHold ==> row.account in db.accounts && db.accounts[row.account].normal == Credit
    ensures HoldsOk(next)
  {
    HoldsHaveTransfers(db);
    forall i | i in next.holds ensures HoldOk(next, i) {
      if i != id {
        assert HoldOk(db, i);
        HoldFrame(db, next, i);
      }
    }
    forall i | i in next.transfers ensures PendingHeld(next, i) {
      if i != id { assert PendingHeld(db, i); }
    }
  }

  lemma InsertKeepsReversals(db: DB, next: DB, id: TransferId, row: Transfer, entry: Option<Entry>)
    requires ReversalsOk(db) && Extends(db, next) && RowInserted(db, next, id, row)
    requires next.reversals == MarkReversal(db.reversals, id, row)
    requires next.journals == WithEntry(db.journals, entry)
    requires EntryOk(db, id, row, entry) && NewReversalOk(db, row, entry)
    ensures ReversalsOk(next)
  {
    forall o | o in next.reversals ensures ReversalOk(next, o) {
      if o in db.reversals {
        assert ReversalOk(db, o);
        ReversalFrame(db, next, o);
      }
    }
    forall i | i in next.transfers ensures ReversalListed(next, i) {
      if i != id { assert ReversalListed(db, i); }
    }
  }

  // A pending row replaced by what it became.
  predicate RowAdvanced(db: DB, next: DB, id: TransferId, row: Transfer) {
    && id in db.transfers
    && db.transfers[id].status == Pending
    && SameIdentity(db.transfers[id], row)
    && next.transfers == db.transfers[id := row]
    && next.byKey == db.byKey
  }

  lemma AdvanceKeepsRows(db: DB, next: DB, id: TransferId, row: Transfer, entry: Option<Entry>)
    requires RowsOk(db) && Extends(db, next) && RowAdvanced(db, next, id, row)
    requires next.accounts == db.accounts && next.journals == WithEntry(db.journals, entry)
    requires StatusesOk(row) && EntryOk(db, id, row, entry)
    ensures RowsOk(next)
  {
    assert RowOk(db, id);
    forall j | j in next.journals ensures JournalOk(next, j) {
      if j in db.journals {
        assert JournalOk(db, j);
        JournalFrame(db, next, j);
      }
    }
    forall i | i in next.transfers ensures RowOk(next, i) {
      if i != id {
        assert RowOk(db, i);
        RowFrame(db, next, i);
      }
    }
  }

  lemma AdvanceKeepsKeys(db: DB, next: DB, id: TransferId, row: Transfer)
    requires KeysOk(db) && RowAdvanced(db, next, id, row)
    ensures KeysOk(next)
  {
    forall k | k in next.byKey ensures KeyOk(next, k) { assert KeyOk(db, k); }
    forall i | i in next.transfers ensures Keyed(next, i) { assert Keyed(db, i); }
  }

  lemma AdvanceKeepsHolds(db: DB, next: DB, id: TransferId, row: Transfer, hold: HoldAction)
    requires HoldsOk(db) && Extends(db, next) && RowAdvanced(db, next, id, row) && ValidStatus(row.status)
    requires next.holds == ApplyHold(db.holds, id, row, hold)
    requires hold == (if !HoldsFunds(row) || row.status == Pending then KeepHold
                      else if row.status == Succeeded then ConsumeHold else ReleaseHold)
    ensures HoldsOk(next)
  {
    assert PendingHeld(db, id);
    if id in db.holds { assert HoldOk(db, id); }
    forall i | i in next.holds ensures HoldOk(next, i) {
      assert HoldOk(db, i);
      if i != id { HoldFrame(db, next, i); }
    }
    forall i | i in next.transfers ensures PendingHeld(next, i) { assert PendingHeld(db, i); }
  }

  lemma AdvanceKeepsReversals(db: DB, next: DB, id: TransferId, row: Transfer)
    requires ReversalsOk(db) && Extends(db, next) && RowAdvanced(db, next, id, row) && RowOk(db, id)
    requires next.reversals == db.reversals
    ensures ReversalsOk(next)
  {
    forall o | o in next.reversals ensures ReversalOk(next, o) {
      assert ReversalOk(db, o);
      ReversalFrame(db, next, o);
    }
    forall i | i in next.transfers ensures ReversalListed(next, i) { assert ReversalListed(db, i); }
  }

  lemma KeepsEvents(db: DB, next: DB, id: TransferId, event: Option<EventWrite>)
    requires EventsOk(db) && EventFree(db, event, id) && id in next.transfers
    requires db.transfers.Keys <= next.transfers.Keys
    requires next.events == WithEvent(db.events, event)
    ensures EventsOk(next)
  {
    forall e | e in next.events ensures EventOk(next, e) {
      if e in db.events { assert EventOk(db, e); }
    }
  }

  lemma KeepsLiens(db: DB, next: DB)
    requires LiensOk(db) && Extends(db, next) && next.liens == db.liens
    ensures LiensOk(next)
  {
    forall l | l in next.liens ensures LienOk(next, l) { assert LienOk(db, l); }
  }

  lemma InsertKeepsInv(db: DB, change: Change)
    requires Inv(db) && change.Insert? && ChangeOk(db, change)
    ensures Inv(Apply(db, change))
  {
    var Insert(id, row, entry, hold, event) := change;
    var next := Apply(db, change);
    HoldsHaveTransfers(db);
    TransferChangeMoney(db, next, id, row, entry, hold);
    InsertKeepsRows(db, next, id, row, entry);
    InsertKeepsKeys(db, next, id, row);
    InsertKeepsHolds(db, next, id, row, hold);
    InsertKeepsReversals(db, next, id, row, entry);
    KeepsEvents(db, next, id, event);
    KeepsLiens(db, next);
  }

  lemma AdvanceKeepsInv(db: DB, change: Change)
    requires Inv(db) && change.Advance? && ChangeOk(db, change)
    ensures Inv(Apply(db, change))
  {
    var Advance(id, row, entry, hold, event) := change;
    var next := Apply(db, change);
    assert RowOk(db, id) && PendingHeld(db, id);
    assert HoldReady(db.holds, id, row, hold)
      && (hold == ConsumeHold ==> db.accounts[row.account].normal == Credit) by {
      if id in db.holds { assert HoldOk(db, id); }
    }
    TransferChangeMoney(db, next, id, row, entry, hold);
    AdvanceKeepsRows(db, next, id, row, entry);
    AdvanceKeepsKeys(db, next, id, row);
    AdvanceKeepsHolds(db, next, id, row, hold);
    AdvanceKeepsReversals(db, next, id, row);
    KeepsEvents(db, next, id, event);
    KeepsLiens(db, next);
  }

  // ---- liens and accounts ------------------------------------------------------

  // Transfers, their index, holds, events and reversals are as they were.
  predicate SameTransfers(db: DB, next: DB) {
    && next.transfers == db.transfers && next.byKey == db.byKey && next.holds == db.holds
    && next.events == db.events && next.reversals == db.reversals && next.journals == db.journals
  }

  lemma FrameKeeps(db: DB, next: DB)
    requires RowsOk(db) && KeysOk(db) && HoldsOk(db) && EventsOk(db) && ReversalsOk(db)
    requires Extends(db, next) && SameTransfers(db, next)
    ensures RowsOk(next) && KeysOk(next) && HoldsOk(next) && EventsOk(next) && ReversalsOk(next)
  {
    forall j | j in next.journals ensures JournalOk(next, j) { assert JournalOk(db, j); JournalFrame(db, next, j); }
    forall i | i in next.transfers ensures RowOk(next, i) { assert RowOk(db, i); RowFrame(db, next, i); }
    forall k | k in next.byKey ensures KeyOk(next, k) { assert KeyOk(db, k); }
    forall i | i in next.transfers ensures Keyed(next, i) { assert Keyed(db, i); }
    forall i | i in next.holds ensures HoldOk(next, i) { assert HoldOk(db, i); HoldFrame(db, next, i); }
    forall i | i in next.transfers ensures PendingHeld(next, i) { assert PendingHeld(db, i); }
    forall e | e in next.events ensures EventOk(next, e) { assert EventOk(db, e); }
    forall o | o in next.reversals ensures ReversalOk(next, o) { assert ReversalOk(db, o); ReversalFrame(db, next, o); }
    forall i | i in next.transfers ensures ReversalListed(next, i) { assert ReversalListed(db, i); }
  }

  lemma LienMoney(db: DB, next: DB, l: LienId, a: AccountId)
    requires AccountsOk(db) && a in db.accounts && MoneyAt(db, a)
    requires next.accounts == db.accounts && next.journals == db.journals && next.holds == db.holds
    requires l in next.liens && next.liens == db.liens[l := next.liens[l]] && next.liens[l].account in db.accounts
    requires l in db.liens ==>
      db.liens[l].account == next.liens[l].account && db.liens[l].amount == next.liens[l].amount
    requires l in db.liens <==> next.liens[l].status != Active
    requires l in db.liens ==> db.liens[l].status == Active
    requires next.balances == Adjust(db.balances, next.liens[l].account,
      if next.liens[l].status == Active then -next.liens[l].amount else next.liens[l].amount, 0)
    ensures a in next.balances && MoneyAt(next, a)
  {
    SumPut(db.liens, ActiveOn(a), l, next.liens[l]);
  }

  // Only the liens and one balance change.
  predicate LienMoved(db: DB, next: DB, l: LienId) {
    && next.accounts == db.accounts && SameTransfers(db, next)
    && l in next.liens && next.liens == db.liens[l := next.liens[l]]
    && next.liens[l].account in db.accounts && db.accounts[next.liens[l].account].kind == Customer
    && next.liens[l].amount > 0
    && (if l in db.liens then
          && db.liens[l].status == Active && next.liens[l] == db.liens[l].(status := Released)
          && next.balances == Adjust(db.balances, next.liens[l].account, next.liens[l].amount, 0)
        else
          && next.liens[l].status == Active
          && next.balances == Adjust(db.balances, next.liens[l].account, -next.liens[l].amount, 0))
  }

  lemma LienMovedMoney(db: DB, next: DB, l: LienId)
    requires AccountsOk(db) && MoneyOk(db) && LienMoved(db, next, l)
    ensures AccountsOk(next) && MoneyOk(next)
  {
    forall a | a in next.accounts ensures MoneyAt(next, a) {
      assert MoneyAt(db, a);
      LienMoney(db, next, l, a);
    }
  }

  lemma LienMovedLiens(db: DB, next: DB, l: LienId)
    requires LiensOk(db) && LienMoved(db, next, l)
    ensures LiensOk(next)
  {
    forall i | i in next.liens ensures LienOk(next, i) {
      if i in db.liens { assert LienOk(db, i); }
    }
  }

  lemma LienChangeKeepsInv(db: DB, change: Change)
    requires Inv(db) && ChangeOk(db, change) && (change.PutLien? || change.FreeLien?)
    ensures Inv(Apply(db, change))
  {
    var next, l := Apply(db, change), change.lien;
    assert LienMoved(db, next, l) by {
      if change.FreeLien? { assert LienOk(db, l); }
    }
    LienMovedMoney(db, next, l);
    LienMovedLiens(db, next, l);
    FrameKeeps(db, next);
  }

  lemma {:induction false} NothingElsewhere(db: DB, a: AccountId, normal: Side)
    requires RowsOk(db) && HoldsOk(db) && LiensOk(db) && a !in db.accounts
    ensures Sum(db.holds, ActiveOn(a)) == 0 && Sum(db.liens, ActiveOn(a)) == 0
    ensures Sum(db.journals, Effect(a, normal)) == 0
  {
    forall id | id in db.holds ensures ActiveOn(a)(id, db.holds[id]) == 0 { assert HoldOk(db, id); }
    SumZero(db.holds, ActiveOn(a));
    forall l | l in db.liens ensures ActiveOn(a)(l, db.liens[l]) == 0 { assert LienOk(db, l); }
    SumZero(db.liens, ActiveOn(a));
    forall j | j in db.journals ensures Effect(a, normal)(j, db.journals[j]) == 0 {
      assert JournalOk(db, j);
      PairEffect(db.journals[j], a, normal);
    }
    SumZero(db.journals, Effect(a, normal));
  }

  // One account changes status, or one opens at zero.
  predicate AccountMoved(db: DB, next: DB, a: AccountId) {
    && SameTransfers(db, next) && next.liens == db.liens
    && a in next.accounts && next.accounts == db.accounts[a := next.accounts[a]]
    && (if a in db.accounts then
          next.accounts[a] == db.accounts[a].(status := next.accounts[a].status) && next.balances == db.balances
        else
          next.accounts[a].normal == Credit && next.balances == db.balances[a := Balance(0, 0, None)])
  }

  lemma AccountMovedMoney(db: DB, next: DB, a: AccountId)
    requires AccountsOk(db) && MoneyOk(db) && RowsOk(db) && HoldsOk(db) && LiensOk(db) && AccountMoved(db, next, a)
    ensures AccountsOk(next) && MoneyOk(next)
  {
    if a !in db.accounts { NothingElsewhere(db, a, Credit); }
    forall b | b in next.accounts ensures MoneyAt(next, b) {
      if b in db.accounts { assert MoneyAt(db, b); }
    }
  }

  lemma AccountChangeKeepsInv(db: DB, change: Change)
    requires Inv(db) && ChangeOk(db, change) && (change.AddAccount? || change.PutStatus?)
    ensures Inv(Apply(db, change))
  {
    var next := Apply(db, change);
    assert AccountMoved(db, next, change.account);
    AccountMovedMoney(db, next, change.account);
    KeepsLiens(db, next);
    FrameKeeps(db, next);
  }

  /** The heart of the matter: whatever commits, the invariant survives. */
  lemma ApplyKeepsInv(db: DB, change: Change)
    requires Inv(db) && ChangeOk(db, change)
    ensures Inv(Apply(db, change))
  {
    match change
    case NoChange =>
    case Insert(_, _, _, _, _) => InsertKeepsInv(db, change);
    case Advance(_, _, _, _, _) => AdvanceKeepsInv(db, change);
    case PutLien(_, _) => LienChangeKeepsInv(db, change);
    case FreeLien(_) => LienChangeKeepsInv(db, change);
    case PutStatus(_, _) => AccountChangeKeepsInv(db, change);
    case AddAccount(_, _) => AccountChangeKeepsInv(db, change);
  }
}
