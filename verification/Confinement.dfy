/** A transaction changes only what it has locked, and rows it just created. */
module Confinement {
  import opened Types
  import opened Ledger
  import opened Transfers
  import opened Steps
  import opened Invariant
  import opened Preservation
  import opened Decisions
  import opened Isolation

  predicate EntryTouches(entry: Option<Entry>, r: Resource) {
    entry.Some? && exists p | p in entry.value.journal.postings :: r == BalanceRow(p.account)
  }

  predicate EventTouches(event: Option<EventWrite>, r: Resource) {
    event.Some? && r == EventLock(event.value.key)
  }

  // The resources whose view a change may alter.
  predicate Touches(db: DB, change: Change, r: Resource) {
    match change
    case NoChange => false
    case Insert(id, row, entry, hold, event) =>
      || r == TransferRow(id) || r == KeyLock(row.key)
      || (row.reversalOf.Some? && r == TransferRow(row.reversalOf.value))
      || EntryTouches(entry, r) || (hold != KeepHold && r == BalanceRow(row.account)) || EventTouches(event, r)
    case Advance(id, row, entry, hold, event) =>
      r == TransferRow(id) || EntryTouches(entry, r) || (hold != KeepHold && r == BalanceRow(row.account))
        || EventTouches(event, r)
    case Retag(id, original, _) => r == TransferRow(id) || r == TransferRow(original)
    case PutLien(lien, hold) => r == LienRow(lien) || r == BalanceRow(hold.account)
    case FreeLien(lien) => r == LienRow(lien) || (lien in db.liens && r == BalanceRow(db.liens[lien].account))
    case PutStatus(a, _) => r == AccountRow(a)
    case AddAccount(a, _) => r == AccountRow(a) || r == BalanceRow(a)
  }

  lemma {:induction false} PostAllElsewhere(db: DB, postings: seq<Posting>, held: Option<AccountId>,
                                            journal: JournalId, a: AccountId)
    requires forall p | p in postings :: p.account != a
    ensures Find(PostAll(db.accounts, db.balances, postings, held, journal), a) == Find(db.balances, a)
  {
    if postings != [] {
      PostAllElsewhere(db, postings[..|postings| - 1], held, journal, a);
    }
  }

  lemma BalanceElsewhere(db: DB, id: TransferId, row: Transfer, entry: Option<Entry>, hold: HoldAction, a: AccountId)
    requires !EntryTouches(entry, BalanceRow(a)) && (hold != KeepHold ==> a != row.account)
    requires hold == ReleaseHold && id in db.holds ==> db.holds[id].account == row.account
    ensures Find(ApplyHoldBalance(db, PostEntry(db, entry, HeldAccount(row, hold)), id, row, hold), a)
      == Find(db.balances, a)
  {
    if entry.Some? {
      forall p | p in entry.value.journal.postings ensures p.account != a {
        if p.account == a { assert EntryTouches(entry, BalanceRow(a)); }
      }
      PostAllElsewhere(db, entry.value.journal.postings, HeldAccount(row, hold), entry.value.id, a);
    }
  }

  // Another transfer's row, hold, reversal and journal.
  lemma TransferElsewhere(db: DB, next: DB, id: TransferId, t: TransferId)
    requires RowsOk(db) && Extends(db, next) && t != id
    requires id in next.transfers && next.transfers == db.transfers[id := next.transfers[id]]
    requires id in db.transfers ==> db.transfers[id].key == next.transfers[id].key
    requires Find(next.holds, t) == Find(db.holds, t)
    requires Find(next.reversals, t) == Find(db.reversals, t)
    requires t in db.reversals ==> db.reversals[t] in db.transfers
    ensures View(next, TransferRow(t)) == View(db, TransferRow(t))
  {
    if t in db.transfers { assert RowOk(db, t); }
  }

  lemma EventElsewhere(db: DB, next: DB, e: EventKey)
    requires EventsOk(db) && Find(next.events, e) == Find(db.events, e)
    requires forall i | i in db.transfers ::
      i in next.transfers && next.transfers[i].reversalOf == db.transfers[i].reversalOf
    ensures View(next, EventLock(e)) == View(db, EventLock(e))
  {
    if e in db.events { assert EventOk(db, e); }
  }

  // The transfer rows a change leaves alone.
  lemma InsertKeepsTransfer(db: DB, change: Change, next: DB, t: TransferId)
    requires RowsOk(db) && ReversalsOk(db) && ChangeOk(db, change) && change.Insert? && next == Apply(db, change)
    requires !Touches(db, change, TransferRow(t))
    ensures View(next, TransferRow(t)) == View(db, TransferRow(t))
  {
    assert t in db.reversals ==> ReversalOk(db, t);
    TransferElsewhere(db, next, change.id, t);
  }

  lemma AdvanceKeepsTransfer(db: DB, change: Change, next: DB, t: TransferId)
    requires RowsOk(db) && ReversalsOk(db) && ChangeOk(db, change) && change.Advance? && next == Apply(db, change)
    requires !Touches(db, change, TransferRow(t))
    ensures View(next, TransferRow(t)) == View(db, TransferRow(t))
  {
    assert RowOk(db, change.id);
    assert t in db.reversals ==> ReversalOk(db, t);
    TransferElsewhere(db, next, change.id, t);
  }

  lemma InsertKeepsEvent(db: DB, change: Change, next: DB, e: EventKey)
    requires EventsOk(db) && ChangeOk(db, change) && change.Insert? && next == Apply(db, change)
    requires !Touches(db, change, EventLock(e))
    ensures View(next, EventLock(e)) == View(db, EventLock(e))
  {
    EventElsewhere(db, next, e);
  }

  lemma AdvanceKeepsEvent(db: DB, change: Change, next: DB, e: EventKey)
    requires EventsOk(db) && ChangeOk(db, change) && change.Advance? && next == Apply(db, change)
    requires !Touches(db, change, EventLock(e))
    ensures View(next, EventLock(e)) == View(db, EventLock(e))
  {
    EventElsewhere(db, next, e);
  }

  lemma KeepsBalance(db: DB, change: Change, a: AccountId)
    requires HoldsOk(db) && ChangeOk(db, change) && (change.Insert? || change.Advance?)
    requires !Touches(db, change, BalanceRow(a))
    ensures View(Apply(db, change), BalanceRow(a)) == View(db, BalanceRow(a))
  {
    assert change.Advance? && change.id in db.holds ==> HoldOk(db, change.id);
    BalanceElsewhere(db, change.id, change.row, change.entry, change.hold, a);
  }

  lemma InsertConfined(db: DB, change: Change, r: Resource)
    requires Inv(db) && ChangeOk(db, change) && change.Insert? && !Touches(db, change, r)
    ensures View(Apply(db, change), r) == View(db, r)
  {
    match r
    case TransferRow(t) => InsertKeepsTransfer(db, change, Apply(db, change), t);
    case EventLock(e) => InsertKeepsEvent(db, change, Apply(db, change), e);
    case BalanceRow(a) => KeepsBalance(db, change, a);
    case _ =>
  }

  lemma AdvanceConfined(db: DB, change: Change, r: Resource)
    requires Inv(db) && ChangeOk(db, change) && change.Advance? && !Touches(db, change, r)
    ensures View(Apply(db, change), r) == View(db, r)
  {
    match r
    case TransferRow(t) => AdvanceKeepsTransfer(db, change, Apply(db, change), t);
    case EventLock(e) => AdvanceKeepsEvent(db, change, Apply(db, change), e);
    case BalanceRow(a) => KeepsBalance(db, change, a);
    case _ =>
  }

  lemma OtherConfined(db: DB, change: Change, r: Resource)
    requires ChangeOk(db, change) && !Touches(db, change, r) && !change.Insert? && !change.Advance?
    ensures View(Apply(db, change), r) == View(db, r)
  {
  }

  /** Applying a change leaves every other resource looking the same. */
  lemma ApplyConfined(db: DB, change: Change, r: Resource)
    requires Inv(db) && ChangeOk(db, change) && !Touches(db, change, r)
    ensures View(Apply(db, change), r) == View(db, r)
  {
    if change.Insert? { InsertConfined(db, change, r); }
    else if change.Advance? { AdvanceConfined(db, change, r); }
    else { OtherConfined(db, change, r); }
  }

  // ---- what a transaction touches it has locked ---------------------------------------

  // Rows a transaction creates under its own fresh ids.
  predicate Created(env: Env, r: Resource) {
    r == TransferRow(env.transfer) || r == LienRow(env.lien) || r == AccountRow(env.account)
      || r == BalanceRow(env.account)
  }

  ghost predicate Covered(db: DB, locks: seq<Resource>, reply: Reply, env: Env) {
    reply.Done? ==> forall r | Touches(db, reply.change, r) :: r in locks || Created(env, r)
  }

  lemma PairLocked(a: AccountId, b: AccountId)
    ensures BalanceRow(a) in AccountLocks(a, b) && BalanceRow(b) in AccountLocks(a, b)
  {
    assert BalanceRow(a) in RowPair(a) && BalanceRow(b) in RowPair(b);
  }

  // An entry touches the two balances it posts to.
  lemma EntryTouchesPair(input: RecordInput, id: TransferId, journal: JournalId, r: Resource)
    requires EntryTouches(Some(Entry(journal, JournalFor(input, id))), r)
    ensures r == BalanceRow(input.account) || r == BalanceRow(input.clearing)
  {
  }

  lemma FreshCovered(db: DB, input: RecordInput, env: Env)
    requires input.reversalOf.None?
    ensures Covered(db, ReplayLocks(input) + RecordFresh(db, input, env).locks, RecordFresh(db, input, env).reply, env)
  {
    var outcome := RecordFresh(db, input, env);
    if outcome.reply.Done? && outcome.reply.change.Insert? {
      PairLocked(input.account, input.clearing);
      forall r | Touches(db, outcome.reply.change, r)
        ensures r in ReplayLocks(input) + outcome.locks || Created(env, r)
      {
        if EntryTouches(outcome.reply.change.entry, r) { EntryTouchesPair(input, env.transfer, env.journal, r); }
      }
    }
  }

  lemma ReversalCovered(db: DB, input: RecordInput, env: Env, now: nat)
    requires input.reversalOf.Some? && RecordFresh(db, input, env).reply.Done?
    requires RecordFresh(db, input, env).reply.change.Insert?
    ensures var recorded := RecordFresh(db, input, env).reply.change;
            var change := AsReversal(recorded, env.transfer, input.reversalOf.value, now);
            forall r | Touches(db, change, r) ::
              r in ReplayLocks(input) + RecordFresh(db, input, env).locks || Created(env, r)
                || r == TransferRow(input.reversalOf.value)
  {
    var outcome := RecordFresh(db, input, env);
    var change := AsReversal(outcome.reply.change, env.transfer, input.reversalOf.value, now);
    PairLocked(input.account, input.clearing);
    forall r | Touches(db, change, r)
      ensures r in ReplayLocks(input) + outcome.locks || Created(env, r) || r == TransferRow(input.reversalOf.value)
    {
      if EntryTouches(change.entry, r) { EntryTouchesPair(input, env.transfer, env.journal, r); }
    }
  }

  lemma SettleCovered(db: DB, id: TransferId, input: RecordInput, env: Env)
    requires id in db.transfers
    ensures Covered(db, [TransferRow(id)] + Settle(db, id, input, env).locks, Settle(db, id, input, env).reply, env)
  {
    var outcome := Settle(db, id, input, env);
    if outcome.reply.Done? && outcome.reply.change.Advance? {
      PairLocked(input.account, input.clearing);
      forall r | Touches(db, outcome.reply.change, r) ensures r in [TransferRow(id)] + outcome.locks {
        if EntryTouches(outcome.reply.change.entry, r) { EntryTouchesPair(input, id, env.journal, r); }
      }
    }
  }

  lemma CompleteCovered(db: DB, id: TransferId, input: RecordInput, env: Env)
    ensures Covered(db, CompleteOutbound(db, id, input, env).locks, CompleteOutbound(db, id, input, env).reply, env)
  {
    var outcome := CompleteOutbound(db, id, input, env);
    if outcome.reply.Done? && outcome.reply.change.Advance? {
      PairLocked(input.account, input.clearing);
      forall r | Touches(db, outcome.reply.change, r) ensures r in outcome.locks {
        if EntryTouches(outcome.reply.change.entry, r) { EntryTouchesPair(input, id, env.journal, r); }
      }
    }
  }

  lemma RequeryCovered(db: DB, id: TransferId, input: RecordInput, env: Env)
    ensures Covered(db, RequeryTransfer(db, id, input, env).locks, RequeryTransfer(db, id, input, env).reply, env)
  {
    if id in db.transfers {
      var known := WithReference(db.transfers[id], input);
      CompleteCovered(db, id, known, env);
      SettleCovered(db, id, known, env);
    }
  }

  lemma ByReferenceCovered(db: DB, input: RecordInput, env: Env)
    requires input.reversalOf.None?
    ensures Covered(db, ReplayLocks(input) + RecordByReference(db, input, env).locks,
      RecordByReference(db, input, env).reply, env)
  {
    FreshCovered(db, input, env);
    if env.pendingPick.Some? && PendingMatch(db, env.pendingPick.value, input) {
      SettleCovered(db, env.pendingPick.value, input, env);
    }
  }

  lemma RecordCovered(db: DB, input: RecordInput, env: Env)
    requires input.reversalOf.None?
    ensures Covered(db, RecordTransfer(db, input, env).locks, RecordTransfer(db, input, env).reply, env)
  {
    ByReferenceCovered(db, input, env);
    FreshCovered(db, input, env);
    assert RecordTransfer(db, input, env) == Locked(ReplayLocks(input), Body(db, input, env));
  }

  // recordTransfer's locks include those of the fresh insert it ends in.
  lemma FreshLocksTaken(db: DB, input: RecordInput, env: Env, r: Resource)
    requires KeysOk(db) && input.key !in db.byKey
    requires RecordTransfer(db, input, env).reply == RecordFresh(db, input, env).reply
    requires RecordFresh(db, input, env).reply.Done? && RecordFresh(db, input, env).reply.change.Insert?
    requires r in ReplayLocks(input) + RecordFresh(db, input, env).locks
    ensures r in RecordTransfer(db, input, env).locks
  {
  }

  lemma ReverseCovered(db: DB, input: ReverseInput, env: Env)
    requires Inv(db) && FreshIds(db, env)
    ensures Covered(db, ReverseTransfer(db, input, env).locks, ReverseTransfer(db, input, env).reply, env)
  {
    var outcome := ReverseTransfer(db, input, env);
    if outcome.reply.Done? {
      ReverseOk(db, input, env);
      if outcome.reply.change.Insert? {
        ReverseInsertCovered(db, input, env);
      }
    }
  }

  lemma ReverseInsertCovered(db: DB, input: ReverseInput, env: Env)
    requires Inv(db) && FreshIds(db, env)
    requires ReverseTransfer(db, input, env).reply.Done? && ReverseTransfer(db, input, env).reply.change.Insert?
    ensures Covered(db, ReverseTransfer(db, input, env).locks, ReverseTransfer(db, input, env).reply, env)
  {
    var o := input.transfer;
    var original := db.transfers[o];
    assert o in db.reversals ==> ReversalOk(db, o);
    var record := ReversalInput(original, Counterparty(db, original).value, input);
    var recorded := RecordTransfer(db, record, env);
    ReversalRecords(db, record, env, o);
    ReversalCovered(db, record, env, env.now);
    forall r | Touches(db, ReverseTransfer(db, input, env).reply.change, r)
      ensures r in ReverseTransfer(db, input, env).locks || Created(env, r)
    {
      if r in ReplayLocks(record) + RecordFresh(db, record, env).locks { FreshLocksTaken(db, record, env, r); }
    }
  }

  lemma ReviewCovered(db: DB, input: ReviewInput, env: Env)
    ensures Covered(db, RecordReview(db, input, env).locks, RecordReview(db, input, env).reply, env)
  {
  }

  lemma ControlsCovered(db: DB, op: Op, env: Env)
    requires op.PlaceLien? || op.ReleaseLien? || op.SetStatus? || op.CreateAccount?
    ensures Covered(db, Exec(db, op, env).locks, Exec(db, op, env).reply, env)
  {
  }

  /** Whatever a committed change alters was locked by its transaction or created by it. */
  lemma ExecCovered(db: DB, op: Op, env: Env, r: Resource)
    requires Inv(db) && Admissible(db, op, env) && Exec(db, op, env).reply.Done?
    requires Touches(db, Exec(db, op, env).reply.change, r)
    ensures r in Exec(db, op, env).locks || Created(env, r)
  {
    match op
    case Record(input) => RecordCovered(db, input, env);
    case Complete(id, input) => CompleteCovered(db, id, input, env);
    case Requery(id, input) => RequeryCovered(db, id, input, env);
    case Reverse(input) => ReverseCovered(db, input, env);
    case Review(input) => ReviewCovered(db, input, env);
    case _ => ControlsCovered(db, op, env);
  }

  /** So a committed step leaves every resource it neither locked nor created as it was. */
  lemma StepConfined(db: DB, op: Op, env: Env, r: Resource)
    requires Inv(db) && Admissible(db, op, env)
    requires r !in Exec(db, op, env).locks && !Created(env, r)
    ensures View(Step(db, op, env), r) == View(db, r)
  {
    if Exec(db, op, env).reply.Done? {
      CommittedOk(db, op, env);
      if Touches(db, Committed(db, op, env), r) { ExecCovered(db, op, env, r); }
      ApplyConfined(db, Committed(db, op, env), r);
    }
  }
}
