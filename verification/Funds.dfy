/** Overspending, reversal deficits, and what a blocked account's ledger does. */
module Funds {
  import opened Types
  import opened Policy
  import opened Ledger
  import opened Transfers
  import opened Steps
  import opened Invariant
  import opened Preservation
  import opened Decisions
  import opened Runs

  /** Inbound requests draw on an internal settlement account, which the service looks up itself. */
  predicate ClearingInternal(db: DB, op: Op) {
    (op.Record? || op.Requery?) && op.input.direction == Inbound && op.input.clearing in db.accounts
    ==> db.accounts[op.input.clearing].kind == Internal
  }

  // The account a change's entry debits, and the one it credits.
  function Debited(change: Change): Option<AccountId> {
    if (change.Insert? || change.Advance?) && change.entry.Some? && |change.entry.value.journal.postings| == 2
    then Some(change.entry.value.journal.postings[0].account) else None
  }

  function Credited(change: Change): Option<AccountId> {
    if (change.Insert? || change.Advance?) && change.entry.Some? && |change.entry.value.journal.postings| == 2
    then Some(change.entry.value.journal.postings[1].account) else None
  }

  // What a change does to a credit-normal account's ledger.
  function LedgerMove(change: Change, a: AccountId): int {
    if Credited(change) == Some(a) then change.row.amount
    else if Debited(change) == Some(a) then -change.row.amount
    else 0
  }

  predicate ConsumesHoldOf(change: Change, a: AccountId) {
    change.Advance? && change.hold == ConsumeHold && change.row.account == a
  }

  // ---- where an entry posts -----------------------------------------------------

  /** Where a change that came from this request posts its entry. */
  predicate PostsAs(change: Change, input: RecordInput) {
    (change.Insert? || change.Advance?) && change.entry.Some? ==>
      && change.entry.value.journal.postings
         == [Posting(DebitAccount(input), Debit, input.amount), Posting(CreditAccount(input), Credit, input.amount)]
      && change.row.account == input.account && change.row.amount == input.amount
  }

  // Posting needed the controls to allow it, and an uncovered debit needed the funds.
  predicate Vetted(db: DB, change: Change, input: RecordInput) {
    && PostsAs(change, input)
    && ((change.Insert? || change.Advance?) && change.entry.Some? ==>
        && input.account in db.accounts && input.clearing in db.accounts
        && ControlsAllow(input, db.accounts[input.account], db.accounts[input.clearing]))
    && (change.Insert? && input.reversalOf.None?
        && (change.hold == CreateHold || (change.entry.Some? && input.direction == Outbound)) ==>
        && change.row.account == input.account && change.row.amount == input.amount
        && input.account in db.accounts && input.account in db.balances
        && CanUseAvailable(db.accounts[input.account], db.balances[input.account].available, input.amount))
    && (change.Advance? && change.entry.Some? && input.reversalOf.None? && input.direction == Outbound ==>
        change.hold == ConsumeHold)
  }

  lemma FreshVetted(db: DB, input: RecordInput, env: Env)
    requires RecordFresh(db, input, env).reply.Done?
    ensures Vetted(db, RecordFresh(db, input, env).reply.change, input)
  {
  }

  lemma SettleVetted(db: DB, id: TransferId, input: RecordInput, env: Env)
    requires id in db.transfers && (db.transfers[id].reversalOf.None? || input.direction != Outbound)
    requires Settle(db, id, input, env).reply.Done?
    ensures Vetted(db, Settle(db, id, input, env).reply.change, input)
  {
  }

  lemma CompleteVetted(db: DB, id: TransferId, input: RecordInput, env: Env)
    requires CompleteOutbound(db, id, input, env).reply.Done?
    ensures Vetted(db, CompleteOutbound(db, id, input, env).reply.change, input)
  {
  }

  lemma RecordVetted(db: DB, input: RecordInput, env: Env)
    requires RowsOk(db) && RecordTransfer(db, input, env).reply.Done?
    ensures Vetted(db, RecordTransfer(db, input, env).reply.change, input)
  {
    if RecordFresh(db, input, env).reply.Done? { FreshVetted(db, input, env); }
    if env.pendingPick.Some? && PendingMatch(db, env.pendingPick.value, input) {
      var id := env.pendingPick.value;
      assert RowOk(db, id);
      if Settle(db, id, input, env).reply.Done? { SettleVetted(db, id, input, env); }
    }
  }

  // The request a step's entry comes from.
  function Source(db: DB, op: Op): RecordInput
    requires op.Record? || op.Complete? || op.Requery? || (op.Reverse? && op.reverse.transfer in db.transfers)
  {
    match op
    case Record(input) => input
    case Complete(_, input) => input
    case Requery(id, input) =>
      if id in db.transfers then
        WithReference(db.transfers[id], input)
      else input
    case Reverse(input) =>
      var original := db.transfers[input.transfer];
      ReversalInput(original, if Counterparty(db, original).Some? then Counterparty(db, original).value else 0, input)
  }

  predicate Sourced(db: DB, op: Op) {
    op.Record? || op.Complete? || op.Requery? || (op.Reverse? && op.reverse.transfer in db.transfers)
  }

  lemma RequeryVetted(db: DB, id: TransferId, input: RecordInput, env: Env)
    requires RowsOk(db) && RequeryTransfer(db, id, input, env).reply.Done?
    ensures Vetted(db, RequeryTransfer(db, id, input, env).reply.change, Source(db, Requery(id, input)))
  {
    var known := Source(db, Requery(id, input));
    var row := db.transfers[id];
    assert RowOk(db, id);
    if row.status == Pending && row.direction == Outbound {
      CompleteVetted(db, id, known, env);
    } else if row.status == Pending && row.direction == Inbound {
      if CompletionStatuses(known).value.0 != Pending { SettleVetted(db, id, known, env); }
    }
  }

  lemma ReverseVetted(db: DB, input: ReverseInput, env: Env)
    requires Inv(db) && FreshIds(db, env) && ReverseTransfer(db, input, env).reply.Done?
    ensures Vetted(db, ReverseTransfer(db, input, env).reply.change, Source(db, Reverse(input)))
  {
    ReverseOk(db, input, env);
    if input.transfer !in db.reversals {
      RecordVetted(db, Source(db, Reverse(input)), env);
    }
  }

  lemma StepVetted(db: DB, op: Op, env: Env)
    requires Inv(db) && Admissible(db, op, env) && Sourced(db, op)
    ensures Vetted(db, Committed(db, op, env), Source(db, op))
  {
    if Exec(db, op, env).reply.Done? {
      match op
      case Record(input) => RecordVetted(db, input, env);
      case Complete(id, input) => CompleteVetted(db, id, input, env);
      case Requery(id, input) => RequeryVetted(db, id, input, env);
      case Reverse(input) => ReverseVetted(db, input, env);
    }
  }

  // Requests that are not money movements post nothing.
  lemma UnsourcedPostsNothing(db: DB, op: Op, env: Env)
    requires !Sourced(db, op)
    ensures Debited(Committed(db, op, env)).None?
  {
  }

  // ---- balances after a change ----------------------------------------------------

  // How a change moves one customer account.
  lemma CustomerMoves(db: DB, change: Change, a: AccountId)
    requires Inv(db) && ChangeOk(db, change) && a in db.accounts && db.accounts[a].kind == Customer
    ensures a in Apply(db, change).balances
    ensures var was, now := db.balances[a], Apply(db, change).balances[a];
            && now.ledger == was.ledger + LedgerMove(change, a)
            && (now.available < was.available ==>
                 || (change.PutLien? && change.newLien.account == a
                     && now.available == was.available - change.newLien.amount)
                 || (change.Insert? && change.hold == CreateHold && change.row.account == a
                     && change.row.status == Pending
                     && now.available == was.available - change.row.amount)
                 || (Debited(change) == Some(a) && !ConsumesHoldOf(change, a)
                     && now.available == was.available - change.row.amount))
  {
    if change.Insert? || change.Advance? {
      TransferMovesCustomer(db, change, a);
    } else if change.FreeLien? {
      assert LienOk(db, change.lien);
    }
  }

  lemma ChangeReady(db: DB, change: Change)
    requires RowsOk(db) && HoldsOk(db) && ChangeOk(db, change) && (change.Insert? || change.Advance?)
    ensures HoldReady(db.holds, change.id, change.row, change.hold)
    ensures change.row.account in db.accounts && change.row.amount > 0
    ensures change.entry.Some? ==> Moves(change.entry.value.journal, change.row)
    ensures change.hold == ConsumeHold ==> change.row.direction == Outbound && change.entry.Some?
  {
    HoldsHaveTransfers(db);
    if change.Advance? {
      assert RowOk(db, change.id) && PendingHeld(db, change.id);
      if change.id in db.holds { assert HoldOk(db, change.id); }
    }
  }

  // The move a posted entry makes on a credit-normal account.
  lemma EntryMoves(db: DB, change: Change, a: AccountId)
    requires (change.Insert? || change.Advance?) && a in db.accounts && db.accounts[a].normal == Credit
    requires change.entry.Some? ==> Moves(change.entry.value.journal, change.row)
    ensures EntryEffect(db, change.entry, a) == LedgerMove(change, a)
  {
    if change.entry.Some? { PairEffect(change.entry.value.journal, a, Credit); }
  }

  lemma TransferMovesCustomer(db: DB, change: Change, a: AccountId)
    requires Inv(db) && ChangeOk(db, change) && a in db.accounts && db.accounts[a].kind == Customer
    requires change.Insert? || change.Advance?
    ensures a in Apply(db, change).balances
    ensures Apply(db, change).balances[a].ledger == db.balances[a].ledger + LedgerMove(change, a)
    ensures Apply(db, change).balances[a].available == db.balances[a].available
               + (if ConsumesHoldOf(change, a) then 0 else LedgerMove(change, a) - HoldMove(change.row, change.hold, a))
    ensures change.row.amount > 0
  {
    ChangeReady(db, change);
    EntryMoves(db, change, a);
    MovedBalance(db, change.id, change.row, change.entry, change.hold, a);
  }

  // How a change moves a customer's ledger.
  lemma LedgerMoves(db: DB, change: Change, a: AccountId)
    requires Inv(db) && ChangeOk(db, change) && a in db.accounts && db.accounts[a].kind == Customer
    ensures a in Apply(db, change).balances && a in db.balances
    ensures Apply(db, change).balances[a].ledger == db.balances[a].ledger + LedgerMove(change, a)
    ensures LedgerMove(change, a) < 0 ==> Debited(change) == Some(a)
  {
    CustomerMoves(db, change, a);
    if change.Insert? || change.Advance? { ChangeReady(db, change); }
  }

  // ---- no overspend ---------------------------------------------------------------

  // What a vetted request takes from such an account without consuming a hold is covered.
  lemma TakenIsCovered(db: DB, change: Change, input: RecordInput, a: AccountId)
    requires Vetted(db, change, input) && input.reversalOf.None?
    requires input.direction == Inbound && input.clearing in db.accounts ==>
      db.accounts[input.clearing].kind == Internal
    requires a in db.accounts && a in db.balances && Restricted(db.accounts[a])
    requires change.Advance? ==> change.hold != CreateHold
    requires change.Insert? ==> change.hold != ConsumeHold
    requires input.direction != Reversal
    ensures Debited(change) == Some(a) && !ConsumesHoldOf(change, a) ==> db.balances[a].available >= change.row.amount
    ensures change.Insert? && change.hold == CreateHold && change.row.account == a ==>
      db.balances[a].available >= change.row.amount
  {
  }

  lemma LienIsCovered(db: DB, op: Op, env: Env, a: AccountId)
    requires !Sourced(db, op) && a in db.balances
    ensures var change := Committed(db, op, env);
            change.PutLien? && change.newLien.account == a ==> db.balances[a].available >= change.newLien.amount
    ensures Debited(Committed(db, op, env)).None?
    ensures Committed(db, op, env).Insert? ==> Committed(db, op, env).hold == KeepHold
  {
  }

  lemma SourcedPlacesNoLien(db: DB, op: Op, env: Env)
    requires Sourced(db, op) && !op.Reverse?
    ensures !Committed(db, op, env).PutLien?
  {
    match op
    case Record(input) => RecordKind(db, input, env);
    case Complete(id, input) => CompleteKind(db, id, input, env);
    case Requery(id, input) => RequeryKind(db, id, input, env);
  }

  // What a change takes from an account's available balance other than by consuming a hold.
  function Taken(change: Change, a: AccountId): int {
    if change.PutLien? && change.newLien.account == a then change.newLien.amount
    else if change.Insert? && change.hold == CreateHold && change.row.account == a then change.row.amount
    else if Debited(change) == Some(a) && !ConsumesHoldOf(change, a) then change.row.amount
    else 0
  }

  // The available balance after a change whose takings are covered.
  lemma CoveredStaysUp(db: DB, change: Change, a: AccountId)
    requires Inv(db) && ChangeOk(db, change) && a in db.accounts && db.accounts[a].kind == Customer
    requires a in db.balances && (Taken(change, a) > 0 ==> Taken(change, a) <= db.balances[a].available)
    ensures a in Apply(db, change).balances
    ensures Apply(db, change).balances[a].available >= db.balances[a].available
      || Apply(db, change).balances[a].available >= 0
  {
    CustomerMoves(db, change, a);
  }

  /** Whatever a step other than a reversal takes from the available balance of such an
      account, by a hold, a lien or a posting that consumes no hold, was available in full. */
  lemma TakingsCovered(db: DB, op: Op, env: Env, a: AccountId)
    requires Inv(db) && Admissible(db, op, env) && ClearingInternal(db, op) && !op.Reverse?
    requires a in db.accounts && Restricted(db.accounts[a])
    ensures a in db.balances
    ensures Taken(Committed(db, op, env), a) > 0 ==> Taken(Committed(db, op, env), a) <= db.balances[a].available
  {
    var change := Committed(db, op, env);
    CommittedOk(db, op, env);
    if Sourced(db, op) {
      StepVetted(db, op, env);
      SourcedPlacesNoLien(db, op, env);
      TakenIsCovered(db, change, Source(db, op), a);
    } else {
      LienIsCovered(db, op, env, a);
    }
  }

  /** So no step but a reversal takes the available balance of a customer account without
      overdraft below zero; a balance already below zero is never lowered further. */
  lemma NoOverspend(db: DB, op: Op, env: Env, a: AccountId)
    requires Inv(db) && Admissible(db, op, env) && ClearingInternal(db, op) && !op.Reverse?
    requires a in db.accounts && Restricted(db.accounts[a])
    ensures a in Step(db, op, env).balances
    ensures Step(db, op, env).balances[a].available >= db.balances[a].available
      || Step(db, op, env).balances[a].available >= 0
  {
    CommittedOk(db, op, env);
    TakingsCovered(db, op, env, a);
    CoveredStaysUp(db, Committed(db, op, env), a);
  }

  predicate ServiceRun(db: DB, calls: seq<Call>)
    decreases |calls|
  {
    calls == [] ||
    (&& Admissible(db, calls[0].op, calls[0].env) && ClearingInternal(db, calls[0].op)
     && ServiceRun(Step(db, calls[0].op, calls[0].env), calls[1..]))
  }

  /** While the available balance does not cover it, a customer-initiated debit of such an
      account is neither posted nor held: it is refused, or recorded as failed. */
  lemma UncoveredDebitMovesNothing(db: DB, input: RecordInput, env: Env, change: Change)
    requires Inv(db) && input.reversalOf.None? && input.direction == Outbound
    requires input.account in db.accounts && Restricted(db.accounts[input.account])
    requires db.balances[input.account].available < input.amount
    requires change == Committed(db, Record(input), env) && change.Insert?
    ensures change.row.status == Failed && change.entry.None? && change.hold == KeepHold
    ensures Apply(db, change).balances == db.balances
  {
    RecordVetted(db, input, env);
    InsertIsFresh(db, input, env);
  }

  lemma InsertIsFresh(db: DB, input: RecordInput, env: Env)
    requires Committed(db, Record(input), env).Insert?
    ensures var change := Committed(db, Record(input), env);
            && (change.entry.Some? <==> change.row.status == Succeeded)
            && (change.hold == CreateHold <==> change.row.status == Pending && CustomerInitiatedOutbound(input))
            && (change.hold == KeepHold || change.hold == CreateHold) && ValidStatus(change.row.status)
  {
    if env.pendingPick.Some? && PendingMatch(db, env.pendingPick.value, input) {
      SettleKeeps(db, env.pendingPick.value, input, env);
    }
  }

  lemma SettleKeeps(db: DB, id: TransferId, input: RecordInput, env: Env)
    requires id in db.transfers
    ensures Settle(db, id, input, env).reply.Done? ==> !Settle(db, id, input, env).reply.change.Insert?
  {
  }

  // ---- reversals and deficits -----------------------------------------------------

  // A reversal that committed a new row.
  predicate Reverses(db: DB, input: ReverseInput, env: Env) {
    Exec(db, Reverse(input), env).reply.Done? && Exec(db, Reverse(input), env).reply.change.Insert?
  }

  lemma ReversalRow(db: DB, input: ReverseInput, env: Env)
    requires Inv(db) && FreshIds(db, env) && Reverses(db, input, env)
    ensures input.transfer in db.transfers && Counterparty(db, db.transfers[input.transfer]).Some?
    ensures input.transfer !in db.reversals && Posts(db, input.transfer)
    ensures var record := Source(db, Reverse(input));
            var change := Committed(db, Reverse(input), env);
            && record.account in db.accounts && record.account in db.balances
            && record.clearing in db.accounts && record.account != record.clearing
            && change == Insert(env.transfer,
                 FreshRow(record, db.accounts[record.account], db.balances[record.account], env)
                   .(direction := Reversal, updatedAt := env.now),
                 Some(Entry(env.journal, JournalFor(record, env.transfer))), KeepHold, Reserve(record, env.transfer))
            && Mirror(JournalOf(db, input.transfer), JournalFor(record, env.transfer))
  {
    ReverseOk(db, input, env);
    var o := input.transfer;
    assert RowOk(db, o) && JournalOk(db, db.transfers[o].journal.value);
    ReversalMirrors(db, o, input, env.transfer);
    var record := Source(db, Reverse(input));
    ReversalRecords(db, record, env, o);
  }

  /** Reversing an inbound transfer on a customer account without overdraft is marked
      reversal_deficit, and put to manual review, exactly when its ledger ends below zero. */
  lemma DeficitMarkedIff(db: DB, input: ReverseInput, env: Env, change: Change, next: DB)
    requires Inv(db) && FreshIds(db, env)
    requires change == Committed(db, Reverse(input), env) && change.Insert? && next == Apply(db, change)
    requires input.transfer in db.transfers && db.transfers[input.transfer].direction == Inbound
    requires db.transfers[input.transfer].account in db.accounts
    requires Restricted(db.accounts[db.transfers[input.transfer].account])
    ensures change.row.account == db.transfers[input.transfer].account && change.row.account in next.balances
    ensures change.row.ledgerStatus == ReversalDeficit <==> next.balances[change.row.account].ledger < 0
    ensures change.row.reconciliation == ManualReview <==> next.balances[change.row.account].ledger < 0
  {
    ReversalRow(db, input, env);
    ReverseOk(db, input, env);
    CustomerMoves(db, change, change.row.account);
  }

  /** The reversal's journal and the original's cancel on every account, whichever side is its normal one. */
  lemma ReversalCancels(db: DB, o: TransferId, a: AccountId, normal: Side)
    requires Inv(db) && o in db.reversals
    ensures Posts(db, o) && Posts(db, db.reversals[o])
    ensures PostingsEffect(JournalOf(db, o).postings, a, normal)
            + PostingsEffect(JournalOf(db, db.reversals[o]).postings, a, normal) == 0
  {
    assert ReversalOk(db, o);
    PairEffect(JournalOf(db, o), a, normal);
    PairEffect(JournalOf(db, db.reversals[o]), a, normal);
  }

  /** Each transfer is reversed at most once, and a reversal never is. */
  lemma OneReversal(db: DB, x: TransferId, y: TransferId)
    requires Inv(db) && x in db.transfers && y in db.transfers
    requires db.transfers[x].reversalOf.Some? && db.transfers[x].reversalOf == db.transfers[y].reversalOf
    ensures x == y
    ensures var o := db.transfers[x].reversalOf.value;
            o in db.transfers && db.transfers[o].direction != Reversal && db.transfers[o].reversalOf.None?
  {
    var o := db.transfers[x].reversalOf.value;
    assert ReversalListed(db, x) && ReversalListed(db, y);
    assert ReversalOk(db, o);
    assert RowOk(db, o);
  }

  /** A reversal request that answers with a transfer answers with the reversal of the one
      it named, whatever key, event or reference it carried; every other path rolls back. */
  lemma ReverseAnswersReversal(db: DB, input: ReverseInput, env: Env)
    requires Inv(db) && FreshIds(db, env) && Exec(db, Reverse(input), env).reply.Done?
    ensures var id, next := Exec(db, Reverse(input), env).reply.id, Step(db, Reverse(input), env);
            && id in next.transfers && next.transfers[id].reversalOf == Some(input.transfer)
            && next.transfers[id].direction == Reversal
            && (id in db.transfers ==> next == db)
            && (forall i | i in db.transfers :: i in next.transfers && next.transfers[i] == db.transfers[i])
  {
    ReverseOk(db, input, env);
    if input.transfer in db.reversals {
      assert ReversalOk(db, input.transfer);
      assert RowOk(db, db.reversals[input.transfer]);
    } else {
      ReversalRow(db, input, env);
    }
  }

  // The transfer is reversed, by a transfer with this key.
  predicate ReversedUnder(db: DB, o: TransferId, r: TransferId, key: Key) {
    && o in db.transfers && db.transfers[o].status == Succeeded && db.transfers[o].direction != Reversal
    && db.transfers[o].journal.Some?
    && Find(db.reversals, o) == Some(r) && r in db.transfers && db.transfers[r].key == key
  }

  lemma ReversedStays(db: DB, later: DB, o: TransferId, r: TransferId, key: Key)
    requires Evolves(db, later) && ReversedUnder(db, o, r, key)
    ensures ReversedUnder(later, o, r, key)
  {
    assert RowEvolves(db, later, o) && RowEvolves(db, later, r);
  }

  lemma ReversedReplays(db: DB, input: ReverseInput, r: TransferId, env: Env)
    requires ReversedUnder(db, input.transfer, r, input.key)
    ensures Exec(db, Reverse(input), env).reply == Done(NoChange, r, false) && Step(db, Reverse(input), env) == db
  {
  }

  // A reversal that answers leaves its transfer reversed under its key.
  lemma ReversingReverses(db: DB, input: ReverseInput, env: Env, next: DB)
    requires Inv(db) && FreshIds(db, env) && Exec(db, Reverse(input), env).reply.Done?
    requires next == Step(db, Reverse(input), env) && Inv(next)
    ensures ReversedUnder(next, input.transfer, Exec(db, Reverse(input), env).reply.id, input.key)
  {
    ReverseOk(db, input, env);
    if input.transfer in db.reversals {
      assert ReversalOk(db, input.transfer);
      assert RowOk(db, input.transfer);
    } else {
      NewReversalReverses(db, input, env, Committed(db, Reverse(input), env), next);
    }
  }

  lemma NewReversalReverses(db: DB, input: ReverseInput, env: Env, change: Change, next: DB)
    requires Inv(db) && FreshIds(db, env) && change == Committed(db, Reverse(input), env) && change.Insert?
    requires next == Apply(db, change)
    ensures ReversedUnder(next, input.transfer, change.id, input.key)
  {
    ReversalRow(db, input, env);
    assert RowOk(db, input.transfer);
  }

  /** A reversal request that answered, sent again after any other requests, gets the same
      reversal and writes nothing. */
  lemma ReversalReplays(db: DB, input: ReverseInput, env: Env, next: DB, calls: seq<Call>, later: DB, again: Env)
    requires Inv(db) && FreshIds(db, env) && Exec(db, Reverse(input), env).reply.Done?
    requires next == Step(db, Reverse(input), env) && AdmissibleRun(next, calls) && later == Run(next, calls)
    ensures Exec(later, Reverse(input), again).reply == Done(NoChange, Exec(db, Reverse(input), env).reply.id, false)
    ensures Step(later, Reverse(input), again) == later
  {
    StepKeepsInv(db, Reverse(input), env);
    ReversingReverses(db, input, env, next);
    RunEvolves(next, calls);
    ReversedStays(next, later, input.transfer, Exec(db, Reverse(input), env).reply.id, input.key);
    ReversedReplays(later, input, Exec(db, Reverse(input), env).reply.id, again);
  }

  // ---- blocked accounts -----------------------------------------------------------

  /** A frozen or closed customer account's ledger does not move. */
  lemma BarredLedgerStill(db: DB, op: Op, env: Env, a: AccountId)
    requires Inv(db) && Admissible(db, op, env) && a in db.accounts && Barred(db.accounts[a])
    ensures a in Step(db, op, env).balances && Step(db, op, env).balances[a].ledger == db.balances[a].ledger
  {
    var change := Committed(db, op, env);
    CommittedOk(db, op, env);
    LedgerMoves(db, change, a);
    if Sourced(db, op) {
      StepVetted(db, op, env);
      BarredNotPosted(db, change, Source(db, op), a);
    } else {
      UnsourcedPostsNothing(db, op, env);
    }
  }

  // A vetted request posts nothing on a barred account.
  lemma BarredNotPosted(db: DB, change: Change, input: RecordInput, a: AccountId)
    requires Vetted(db, change, input) && a in db.accounts && Barred(db.accounts[a])
    ensures LedgerMove(change, a) == 0
  {
  }

  /** A post-no-debit account's ledger falls only when it is the counterparty of a reversal. */
  lemma NoDebitLedgerRises(db: DB, op: Op, env: Env, a: AccountId)
    requires Inv(db) && Admissible(db, op, env) && ClearingInternal(db, op)
    requires a in db.accounts && db.accounts[a].kind == Customer && db.accounts[a].status == PostNoDebit
    ensures a in Step(db, op, env).balances
    ensures Step(db, op, env).balances[a].ledger < db.balances[a].ledger ==>
      ReversedAgainst(db, op, a) && db.transfers[op.reverse.transfer].account != a
  {
    var change := Committed(db, op, env);
    CommittedOk(db, op, env);
    LedgerMoves(db, change, a);
    if Sourced(db, op) {
      StepVetted(db, op, env);
      if op.Reverse? && change.Insert? {
        ReversalDebits(db, op.reverse, env, change, a);
      } else if op.Reverse? {
        if Exec(db, op, env).reply.Done? { ReverseOk(db, op.reverse, env); }
      } else {
        DebitNeedsPermission(db, change, Source(db, op), a);
      }
    } else {
      UnsourcedPostsNothing(db, op, env);
    }
  }

  predicate ReversedAgainst(db: DB, op: Op, a: AccountId) {
    op.Reverse? && op.reverse.transfer in db.transfers
    && Counterparty(db, db.transfers[op.reverse.transfer]) == Some(a)
  }

  lemma DebitNeedsPermission(db: DB, change: Change, input: RecordInput, a: AccountId)
    requires Vetted(db, change, input) && input.direction != Reversal
    requires input.direction == Inbound && input.clearing in db.accounts ==>
      db.accounts[input.clearing].kind == Internal
    requires a in db.accounts && db.accounts[a].kind == Customer && db.accounts[a].status == PostNoDebit
    ensures Debited(change) != Some(a)
  {
  }

  lemma ReversalDebits(db: DB, input: ReverseInput, env: Env, change: Change, a: AccountId)
    requires Inv(db) && FreshIds(db, env) && input.transfer in db.transfers
    requires change == Committed(db, Reverse(input), env) && change.Insert?
    requires Vetted(db, change, Source(db, Reverse(input)))
    requires a in db.accounts && db.accounts[a].kind == Customer && db.accounts[a].status == PostNoDebit
    ensures Debited(change) == Some(a) ==>
      db.transfers[input.transfer].account != a && Counterparty(db, db.transfers[input.transfer]) == Some(a)
  {
    ReversalRow(db, input, env);
  }

  predicate StaysBarred(db: DB, calls: seq<Call>, a: AccountId)
    decreases |calls|
  {
    && a in db.accounts && Barred(db.accounts[a])
    && (calls == [] || StaysBarred(Step(db, calls[0].op, calls[0].env), calls[1..], a))
  }

  /** Over any stretch of a run in which an account stays frozen or closed, its ledger is constant. */
  lemma {:induction false} BarredLedgerConstant(db: DB, calls: seq<Call>, a: AccountId)
    requires Inv(db) && AdmissibleRun(db, calls) && StaysBarred(db, calls, a)
    ensures a in Run(db, calls).balances && Run(db, calls).balances[a].ledger == db.balances[a].ledger
    decreases |calls|
  {
    if calls != [] {
      StepKeepsInv(db, calls[0].op, calls[0].env);
      BarredLedgerStill(db, calls[0].op, calls[0].env, a);
      BarredLedgerConstant(Step(db, calls[0].op, calls[0].env), calls[1..], a);
    }
  }

  // The account stays under post-no-debit, and no reversal names it as counterparty.
  predicate StaysNoDebit(db: DB, calls: seq<Call>, a: AccountId)
    decreases |calls|
  {
    && a in db.accounts && db.accounts[a].kind == Customer && db.accounts[a].status == PostNoDebit
    && (calls == [] ||
        (!ReversedAgainst(db, calls[0].op, a) && StaysNoDebit(Step(db, calls[0].op, calls[0].env), calls[1..], a)))
  }

  /** Over any stretch under post-no-debit without such a reversal the ledger never falls. */
  lemma {:induction false} NoDebitLedgerNeverFalls(db: DB, calls: seq<Call>, a: AccountId)
    requires Inv(db) && ServiceRun(db, calls) && StaysNoDebit(db, calls, a)
    ensures a in Run(db, calls).balances && Run(db, calls).balances[a].ledger >= db.balances[a].ledger
    decreases |calls|
  {
    if calls != [] {
      StepKeepsInv(db, calls[0].op, calls[0].env);
      NoDebitLedgerRises(db, calls[0].op, calls[0].env, a);
      NoDebitLedgerNeverFalls(Step(db, calls[0].op, calls[0].env), calls[1..], a);
    }
  }

  // Only a status request changes a status.
  lemma StatusFrom(db: DB, op: Op, env: Env)
    requires Inv(db) && Admissible(db, op, env) && Committed(db, op, env).PutStatus?
    ensures op.SetStatus?
  {
    match op
    case Record(input) => RecordKind(db, input, env);
    case Complete(id, input) => CompleteKind(db, id, input, env);
    case Requery(id, input) => RequeryKind(db, id, input, env);
    case Reverse(input) => ReverseOk(db, input, env);
    case _ =>
  }

  lemma StatusOnlyPut(db: DB, change: Change, a: AccountId)
    requires a in db.accounts && ChangeOk(db, change)
    ensures a in Apply(db, change).accounts
    ensures Apply(db, change).accounts[a].status != db.accounts[a].status ==> change.PutStatus? && change.account == a
  {
  }

  /** An account's status moves only between active and frozen, and active and post-no-debit. */
  lemma StatusMoves(db: DB, op: Op, env: Env, a: AccountId)
    requires Inv(db) && Admissible(db, op, env) && a in db.accounts
    ensures a in Step(db, op, env).accounts
    ensures var was, now := db.accounts[a].status, Step(db, op, env).accounts[a].status;
            was != now ==> op.SetStatus? && op.control.account == a && was != Closed && now != Closed
                           && (was == ActiveAccount) != (now == ActiveAccount)
  {
    var change := Committed(db, op, env);
    CommittedOk(db, op, env);
    StatusOnlyPut(db, change, a);
    if change.PutStatus? { StatusFrom(db, op, env); }
  }
}
