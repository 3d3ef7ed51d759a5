/** What a caller can check beforehand: when a reversal goes through, and when a request that
    finishes a held transfer debits the account it is held on. */
module Guards {
  import opened Types
  import opened Transfers
  import opened Steps
  import opened Invariant
  import opened Decisions
  import opened Funds
  import opened Effects
  import opened Finishing

  // ---- reversals ------------------------------------------------------------------------

  // A transfer of this provider, reference and direction.
  predicate SameReference(db: DB, id: TransferId, input: RecordInput) {
    && id in db.transfers
    && var row := db.transfers[id];
       row.provider == input.provider && row.reference == input.reference && row.direction == input.direction
  }

  // Nothing recorded before stands in the way: no key, no event, no transfer found by the reference.
  predicate Unrecorded(db: DB, input: RecordInput, env: Env) {
    && input.key !in db.byKey && EventUnseen(db, input)
    && (env.pendingPick.Some? && SameReference(db, env.pendingPick.value, input) ==>
          db.transfers[env.pendingPick.value].status != Pending)
    && (env.settledPick.Some? && SameReference(db, env.settledPick.value, input) ==>
          db.transfers[env.settledPick.value].status == Pending)
  }

  /** The transfer named succeeded, is no reversal and has none yet, and the opposite movement
      can be recorded. */
  predicate GoesThrough(db: DB, input: ReverseInput, env: Env) {
    && input.transfer in db.transfers && input.transfer !in db.reversals
    && var original := db.transfers[input.transfer];
       && original.status == Succeeded && original.direction != Reversal
       && Counterparty(db, original).Some?
       && var record := ReversalInput(original, Counterparty(db, original).value, input);
          Unrecorded(db, record, env) && Allowed(db, record.account, record.clearing, record.direction)
  }

  lemma FreshInsertsIff(db: DB, input: RecordInput, env: Env)
    requires AccountsOk(db) && input.amount > 0 && input.status == Succeeded && input.providerStatus == NoStatus
    requires input.reversalOf.Some? && EventUnseen(db, input)
    ensures RecordFresh(db, input, env).reply.Done? <==> Allowed(db, input.account, input.clearing, input.direction)
    ensures RecordFresh(db, input, env).reply.Done? ==> RecordFresh(db, input, env).reply.change.Insert?
  {
  }

  lemma TakenNotInserted(db: DB, input: RecordInput, env: Env)
    requires !EventUnseen(db, input)
    ensures RecordFresh(db, input, env).reply.Done? ==> RecordFresh(db, input, env).reply.change == NoChange
  {
  }

  // An unrecorded request is recorded afresh.
  lemma UnrecordedIsFresh(db: DB, input: RecordInput, env: Env)
    requires Unrecorded(db, input, env)
    ensures RecordTransfer(db, input, env).reply == RecordFresh(db, input, env).reply
  {
  }

  // A request that inserts was unrecorded.
  lemma InsertedWasUnrecorded(db: DB, input: RecordInput, env: Env)
    requires KeysOk(db) && ByReference(input)
    requires RecordTransfer(db, input, env).reply.Done? && RecordTransfer(db, input, env).reply.change.Insert?
    ensures Unrecorded(db, input, env)
  {
    assert input.key in db.byKey ==> KeyOk(db, input.key);
    if env.pendingPick.Some? && PendingMatch(db, env.pendingPick.value, input) {
      SettleKeeps(db, env.pendingPick.value, input, env);
    } else if !EventUnseen(db, input) {
      TakenNotInserted(db, input, env);
    }
  }

  // The opposite movement is recorded as a new transfer exactly when these guards pass.
  lemma ReversalInsertsIff(db: DB, record: RecordInput, env: Env)
    requires AccountsOk(db) && KeysOk(db) && record.amount > 0 && record.status == Succeeded
    requires record.providerStatus == NoStatus && record.reversalOf.Some? && record.reference != Blank
    ensures var reply := RecordTransfer(db, record, env).reply;
            reply.Done? && reply.change.Insert?
            <==> Unrecorded(db, record, env) && Allowed(db, record.account, record.clearing, record.direction)
  {
    var reply := RecordTransfer(db, record, env).reply;
    if reply.Done? && reply.change.Insert? { InsertedWasUnrecorded(db, record, env); }
    if Unrecorded(db, record, env) {
      UnrecordedIsFresh(db, record, env);
      FreshInsertsIff(db, record, env);
    }
  }

  // What a reversal commits is what recording the opposite movement inserts.
  lemma ReverseInserts(db: DB, input: ReverseInput, env: Env)
    requires Inv(db) && input.transfer in db.transfers && input.transfer !in db.reversals
    requires db.transfers[input.transfer].status == Succeeded && db.transfers[input.transfer].direction != Reversal
    requires Counterparty(db, db.transfers[input.transfer]).Some?
    ensures var original := db.transfers[input.transfer];
            var record := ReversalInput(original, Counterparty(db, original).value, input);
            var reply := RecordTransfer(db, record, env).reply;
            Committed(db, Reverse(input), env).Insert? <==> reply.Done? && reply.change.Insert?
  {
    var original := db.transfers[input.transfer];
    var record := ReversalInput(original, Counterparty(db, original).value, input);
    assert RowOk(db, input.transfer);
    var reply := RecordTransfer(db, record, env).reply;
    if reply.Done? {
      ReversalRecords(db, record, env, input.transfer);
      RecordKind(db, record, env);
      if reply.change.Insert? { InsertCarries(db, record, env); }
    }
  }

  lemma InsertCarries(db: DB, input: RecordInput, env: Env)
    requires RecordTransfer(db, input, env).reply.Done? && RecordTransfer(db, input, env).reply.change.Insert?
    ensures RecordTransfer(db, input, env).reply.change.row.reversalOf == input.reversalOf
  {
    if env.pendingPick.Some? && PendingMatch(db, env.pendingPick.value, input) {
      SettleKeeps(db, env.pendingPick.value, input, env);
    }
  }

  // A reversal that inserts was of a transfer that may be reversed.
  lemma ReversibleIfInserted(db: DB, input: ReverseInput, env: Env)
    requires Inv(db) && FreshIds(db, env) && Committed(db, Reverse(input), env).Insert?
    ensures input.transfer in db.transfers && input.transfer !in db.reversals
    ensures db.transfers[input.transfer].status == Succeeded && db.transfers[input.transfer].direction != Reversal
    ensures Counterparty(db, db.transfers[input.transfer]).Some?
  {
    ReversalRow(db, input, env);
  }

  /** A reversal request commits a new row if and only if its guards pass. */
  lemma GoesThroughIff(db: DB, input: ReverseInput, env: Env)
    requires Inv(db) && FreshIds(db, env)
    ensures Committed(db, Reverse(input), env).Insert? <==> GoesThrough(db, input, env)
  {
    if Committed(db, Reverse(input), env).Insert? { ReversibleIfInserted(db, input, env); }
    if Committed(db, Reverse(input), env).Insert? || GoesThrough(db, input, env) {
      var original := db.transfers[input.transfer];
      assert RowOk(db, input.transfer);
      ReverseInserts(db, input, env);
      ReversalInsertsIff(db, ReversalInput(original, Counterparty(db, original).value, input), env);
    }
  }

  // ---- finishing a held transfer ------------------------------------------------------------

  predicate CompletesOn(db: DB, id: TransferId, input: RecordInput, a: AccountId) {
    Completes(db, id, input, Succeeded) && input.account == a
  }

  predicate RequeriesOn(db: DB, id: TransferId, input: RecordInput, a: AccountId) {
    RequeryEnds(db, id, input, Succeeded) && input.direction == Outbound && input.account == a
  }

  predicate SettlesOn(db: DB, id: TransferId, input: RecordInput, a: AccountId) {
    && Matches(db, id, input) && SaysPlainly(input, Succeeded) && MayEnd(db, input, Succeeded)
    && input.direction == Outbound && input.account == a
  }

  // A recorded request that finds such a transfer by its provider reference.
  predicate RecordSettlesOn(db: DB, input: RecordInput, env: Env, a: AccountId) {
    && env.pendingPick.Some? && Found(db, env.pendingPick.value, input, env)
    && SettlesOn(db, env.pendingPick.value, input, a)
  }

  /** The request finishes, as succeeded, a pending transfer that holds this account's money. */
  predicate FinishesHeld(db: DB, op: Op, env: Env, a: AccountId) {
    match op
    case Complete(id, input) => CompletesOn(db, id, input, a)
    case Requery(id, input) => RequeriesOn(db, id, input, a)
    case Record(input) => RecordSettlesOn(db, input, env, a)
    case _ => false
  }

  // A reply that debits the account.
  predicate DebitsBy(reply: Reply, a: AccountId) {
    reply.Done? && Debited(reply.change) == Some(a)
  }

  lemma CompleteDebitsIf(db: DB, id: TransferId, input: RecordInput, env: Env, a: AccountId)
    requires Inv(db) && input.direction == Outbound && input.reversalOf.None? && CompletesOn(db, id, input, a)
    ensures DebitsBy(CompleteOutbound(db, id, input, env).reply, a)
  {
    PendingReady(db, id);
    ControlsAllowIff(db, input);
  }

  lemma CompleteDebitsOnlyIf(db: DB, id: TransferId, input: RecordInput, env: Env, a: AccountId)
    requires input.direction == Outbound && input.reversalOf.None?
    requires DebitsBy(CompleteOutbound(db, id, input, env).reply, a)
    ensures CompletesOn(db, id, input, a)
  {
  }

  lemma SettleDebitsIf(db: DB, id: TransferId, input: RecordInput, env: Env, a: AccountId)
    requires Inv(db) && input.reversalOf.None? && SettlesOn(db, id, input, a)
    ensures DebitsBy(Settle(db, id, input, env).reply, a)
  {
    PendingReady(db, id);
    ControlsAllowIff(db, input);
  }

  lemma SettleDebitsOnlyIf(db: DB, id: TransferId, input: RecordInput, env: Env, a: AccountId)
    requires input.direction == Outbound && input.reversalOf.None? && id in db.transfers
    requires db.transfers[id].status == Pending
    requires DebitsBy(Settle(db, id, input, env).reply, a)
    ensures SettlesOn(db, id, input, a)
  {
  }

  // An inbound settlement debits the clearing account.
  lemma InboundSettleDebits(db: DB, id: TransferId, input: RecordInput, env: Env, a: AccountId)
    requires input.direction == Inbound && id in db.transfers && DebitsBy(Settle(db, id, input, env).reply, a)
    ensures a == input.clearing && a in db.accounts
  {
  }

  // ---- the same for each request ------------------------------------------------------------

  lemma RequeryDebitsIf(db: DB, id: TransferId, input: RecordInput, env: Env, a: AccountId)
    requires Inv(db) && input.reversalOf.None? && RequeriesOn(db, id, input, a)
    ensures DebitsBy(RequeryTransfer(db, id, input, env).reply, a)
  {
    CompleteDebitsIf(db, id, WithReference(db.transfers[id], input), env, a);
  }

  lemma RequeryDebitsOnlyIf(db: DB, id: TransferId, input: RecordInput, env: Env, a: AccountId)
    requires input.direction != Reversal && input.reversalOf.None?
    requires a in db.accounts && db.accounts[a].kind == Customer
    requires input.direction == Inbound && input.clearing in db.accounts ==>
      db.accounts[input.clearing].kind == Internal
    requires DebitsBy(RequeryTransfer(db, id, input, env).reply, a)
    ensures RequeriesOn(db, id, input, a)
  {
    var known := WithReference(db.transfers[id], input);
    if known.direction == Outbound {
      CompleteDebitsOnlyIf(db, id, known, env, a);
    } else {
      RequeryInboundDebits(db, id, known, env, a);
    }
  }

  lemma RequeryInboundDebits(db: DB, id: TransferId, input: RecordInput, env: Env, a: AccountId)
    requires id in db.transfers && input.direction == Inbound == db.transfers[id].direction
    ensures DebitsBy(RequeryPending(db, id, input, env).reply, a) ==> a == input.clearing && a in db.accounts
  {
    if DebitsBy(Settle(db, id, input, env).reply, a) { InboundSettleDebits(db, id, input, env, a); }
  }

  lemma RecordDebitsIf(db: DB, input: RecordInput, env: Env, a: AccountId)
    requires Inv(db) && input.reversalOf.None? && RecordSettlesOn(db, input, env, a)
    ensures DebitsBy(RecordTransfer(db, input, env).reply, a)
  {
    SettleDebitsIf(db, env.pendingPick.value, input, env, a);
  }

  // A record that advances a transfer settles the one it picked.
  lemma AdvanceIsSettlement(db: DB, input: RecordInput, env: Env)
    requires KeysOk(db)
    requires RecordTransfer(db, input, env).reply.Done? && RecordTransfer(db, input, env).reply.change.Advance?
    ensures input.key !in db.byKey && ByReference(input)
    ensures env.pendingPick.Some? && PendingMatch(db, env.pendingPick.value, input)
    ensures RecordTransfer(db, input, env).reply == Settle(db, env.pendingPick.value, input, env).reply
  {
    assert input.key in db.byKey ==> KeyOk(db, input.key);
  }

  lemma RecordDebitsOnlyIf(db: DB, input: RecordInput, env: Env, a: AccountId)
    requires KeysOk(db) && input.direction != Reversal && input.reversalOf.None?
    requires a in db.accounts && db.accounts[a].kind == Customer
    requires input.direction == Inbound && input.clearing in db.accounts ==>
      db.accounts[input.clearing].kind == Internal
    requires DebitsBy(RecordTransfer(db, input, env).reply, a) && RecordTransfer(db, input, env).reply.change.Advance?
    ensures RecordSettlesOn(db, input, env, a)
  {
    AdvanceIsSettlement(db, input, env);
    if input.direction == Outbound {
      SettleDebitsOnlyIf(db, env.pendingPick.value, input, env, a);
    } else {
      InboundSettleDebits(db, env.pendingPick.value, input, env, a);
    }
  }

  // A debit is made by the request's reply.
  lemma DebitIsReply(db: DB, op: Op, env: Env, a: AccountId)
    ensures Debited(Committed(db, op, env)) == Some(a) <==> DebitsBy(Exec(db, op, env).reply, a)
  {
  }

  lemma FinishingDebits(db: DB, op: Op, env: Env, a: AccountId)
    requires Inv(db) && Admissible(db, op, env) && FinishesHeld(db, op, env, a)
    ensures Debited(Committed(db, op, env)) == Some(a)
  {
    DebitIsReply(db, op, env, a);
    match op
    case Complete(id, input) => CompleteDebitsIf(db, id, input, env, a);
    case Requery(id, input) => RequeryDebitsIf(db, id, input, env, a);
    case Record(input) => RecordDebitsIf(db, input, env, a);
  }

  lemma DebitingFinishes(db: DB, op: Op, env: Env, a: AccountId)
    requires Inv(db) && Admissible(db, op, env) && ClearingInternal(db, op) && !op.Reverse?
    requires a in db.accounts && db.accounts[a].kind == Customer
    requires Debited(Committed(db, op, env)) == Some(a) && (op.Record? ==> Committed(db, op, env).Advance?)
    ensures FinishesHeld(db, op, env, a)
  {
    DebitIsReply(db, op, env, a);
    match op
    case Complete(id, input) => CompleteDebitsOnlyIf(db, id, input, env, a);
    case Requery(id, input) => RequeryDebitsOnlyIf(db, id, input, env, a);
    case Record(input) => RecordDebitsOnlyIf(db, input, env, a);
    case _ => UnsourcedPostsNothing(db, op, env);
  }

  /** A completion or a requery debits a customer account if and only if it finishes a pending
      transfer that holds the account's money: every condition can be checked beforehand. */
  lemma CompletionDebitsIff(db: DB, op: Op, env: Env, a: AccountId)
    requires Inv(db) && Admissible(db, op, env) && ClearingInternal(db, op) && (op.Complete? || op.Requery?)
    requires a in db.accounts && db.accounts[a].kind == Customer
    ensures Debited(Committed(db, op, env)) == Some(a) <==> FinishesHeld(db, op, env, a)
  {
    if FinishesHeld(db, op, env, a) { FinishingDebits(db, op, env, a); }
    if Debited(Committed(db, op, env)) == Some(a) { DebitingFinishes(db, op, env, a); }
  }
}
