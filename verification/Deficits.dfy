/** How an account that must not be overdrawn gets below zero, and which overdrafts are flagged. */
module Deficits {
  import opened Types
  import opened Policy
  import opened Ledger
  import opened Transfers
  import opened Steps
  import opened Sums
  import opened Invariant
  import opened Decisions
  import opened Runs
  import opened Funds
  import opened Guards

  // A customer account without overdraft with less than nothing available.
  predicate BelowZero(db: DB, a: AccountId) {
    a in db.accounts && a in db.balances && Restricted(db.accounts[a]) && db.balances[a].available < 0
  }

  // The account a transfer credited, which is the one its reversal debits.
  predicate CreditedBy(db: DB, o: TransferId, a: AccountId) {
    Posts(db, o) && |JournalOf(db, o).postings| == 2 && JournalOf(db, o).postings[1].account == a
  }

  // A reversal that goes through and takes back more than such an account has available.
  predicate Uncovered(db: DB, op: Op, env: Env, a: AccountId) {
    && op.Reverse? && GoesThrough(db, op.reverse, env)
    && CreditedBy(db, op.reverse.transfer, a)
    && a in db.accounts && a in db.balances && Restricted(db.accounts[a])
    && db.transfers[op.reverse.transfer].amount > db.balances[a].available
  }

  // ---- one step -------------------------------------------------------------------

  lemma ReversalTakes(db: DB, input: ReverseInput, env: Env, change: Change)
    requires Inv(db) && FreshIds(db, env) && change == Committed(db, Reverse(input), env) && change.Insert?
    ensures Posts(db, input.transfer) && Balanced(JournalOf(db, input.transfer))
    ensures Debited(change) == Some(JournalOf(db, input.transfer).postings[1].account)
    ensures Credited(change) == Some(JournalOf(db, input.transfer).postings[0].account)
    ensures change.row.amount == db.transfers[input.transfer].amount && change.hold == KeepHold
    ensures change.row.account == db.transfers[input.transfer].account
  {
    ReversalRow(db, input, env);
  }

  // Where a committed reversal leaves such an account.
  lemma ReversalMoves(db: DB, input: ReverseInput, env: Env, change: Change, a: AccountId)
    requires Inv(db) && FreshIds(db, env) && change == Committed(db, Reverse(input), env) && change.Insert?
    requires a in db.accounts && db.accounts[a].kind == Customer
    ensures a in db.balances && a in Apply(db, change).balances && Posts(db, input.transfer)
    ensures var was, now, amount := db.balances[a], Apply(db, change).balances[a], db.transfers[input.transfer].amount;
            && amount > 0
            && (CreditedBy(db, input.transfer, a) ==>
                now.available == was.available - amount && now.ledger == was.ledger - amount)
            && (!CreditedBy(db, input.transfer, a) ==> now.available >= was.available && now.ledger >= was.ledger)
  {
    ReversalTakes(db, input, env, change);
    ReverseOk(db, input, env);
    TransferMovesCustomer(db, change, a);
  }

  // A reversal that inserts nothing changes nothing.
  lemma ReversalElse(db: DB, input: ReverseInput, env: Env)
    requires Inv(db) && FreshIds(db, env) && !Committed(db, Reverse(input), env).Insert?
    ensures Committed(db, Reverse(input), env) == NoChange
  {
    if Exec(db, Reverse(input), env).reply.Done? { ReverseOk(db, input, env); }
  }

  lemma StaysRestricted(db: DB, op: Op, env: Env, a: AccountId)
    requires Inv(db) && Admissible(db, op, env) && a in db.accounts
    ensures a in Step(db, op, env).accounts && a in Step(db, op, env).balances && a in db.balances
    ensures Restricted(Step(db, op, env).accounts[a]) <==> Restricted(db.accounts[a])
  {
    StepEvolves(db, op, env);
  }

  /** One step takes a customer account without overdraft from something available to below
      zero if and only if it is a reversal that debits it by more than it has available. */
  lemma BelowZeroIff(db: DB, op: Op, env: Env, a: AccountId)
    requires Inv(db) && Admissible(db, op, env) && ClearingInternal(db, op)
    requires a in db.accounts && Restricted(db.accounts[a]) && !BelowZero(db, a)
    ensures BelowZero(Step(db, op, env), a) <==> Uncovered(db, op, env, a)
  {
    StaysRestricted(db, op, env, a);
    if op.Reverse? { GoesThroughIff(db, op.reverse, env); }
    if !op.Reverse? {
      NoOverspend(db, op, env, a);
    } else if Committed(db, op, env).Insert? {
      ReversalMoves(db, op.reverse, env, Committed(db, op, env), a);
    } else {
      ReversalElse(db, op.reverse, env);
    }
  }

  // ---- runs -----------------------------------------------------------------------

  predicate EverBelow(db: DB, calls: seq<Call>, a: AccountId)
    decreases |calls|
  {
    BelowZero(db, a) || (calls != [] && EverBelow(Step(db, calls[0].op, calls[0].env), calls[1..], a))
  }

  predicate EverUncovered(db: DB, calls: seq<Call>, a: AccountId)
    decreases |calls|
  {
    calls != [] &&
    (Uncovered(db, calls[0].op, calls[0].env, a) || EverUncovered(Step(db, calls[0].op, calls[0].env), calls[1..], a))
  }

  lemma NewAccountsAtZero(db: DB, change: Change, a: AccountId)
    requires a !in db.accounts && a in Apply(db, change).accounts
    ensures a in Apply(db, change).balances && Apply(db, change).balances[a].available == 0
  {
  }

  lemma StepBelowIff(db: DB, op: Op, env: Env, a: AccountId)
    requires Inv(db) && Admissible(db, op, env) && ClearingInternal(db, op) && !BelowZero(db, a)
    ensures BelowZero(Step(db, op, env), a) <==> Uncovered(db, op, env, a)
  {
    if a !in db.accounts {
      if a in Step(db, op, env).accounts { NewAccountsAtZero(db, Committed(db, op, env), a); }
    } else if Restricted(db.accounts[a]) {
      BelowZeroIff(db, op, env, a);
    } else {
      StaysRestricted(db, op, env, a);
    }
  }

  /** Over any run an account that starts with something available is below zero at some
      point if and only if some reversal of the run was not covered by what it had available. */
  lemma {:induction false} EverBelowIff(db: DB, calls: seq<Call>, a: AccountId)
    requires Inv(db) && ServiceRun(db, calls) && !BelowZero(db, a)
    ensures EverBelow(db, calls, a) <==> EverUncovered(db, calls, a)
    decreases |calls|
  {
    if calls != [] {
      var next := Step(db, calls[0].op, calls[0].env);
      StepKeepsInv(db, calls[0].op, calls[0].env);
      StepBelowIff(db, calls[0].op, calls[0].env, a);
      if !BelowZero(next, a) { EverBelowIff(next, calls[1..], a); }
    }
  }

  lemma {:induction false} EndIsReached(db: DB, calls: seq<Call>, a: AccountId)
    requires BelowZero(Run(db, calls), a)
    ensures EverBelow(db, calls, a)
    decreases |calls|
  {
    if calls != [] { EndIsReached(Step(db, calls[0].op, calls[0].env), calls[1..], a); }
  }

  lemma HeldNonNegative(db: DB, a: AccountId)
    requires HoldsOk(db) && LiensOk(db) && RowsOk(db)
    ensures HeldSum(db, a) >= 0
  {
    forall id | id in db.holds ensures ActiveOn(a)(id, db.holds[id]) >= 0 {
      assert HoldOk(db, id);
      assert RowOk(db, id);
    }
    forall l | l in db.liens ensures ActiveOn(a)(l, db.liens[l]) >= 0 { assert LienOk(db, l); }
    SumNonNegative(db.holds, ActiveOn(a));
    SumNonNegative(db.liens, ActiveOn(a));
  }

  /** In every run in which no reversal takes more than the account has available, what is
      held on it never exceeds its ledger, and neither is ever negative. */
  lemma HoldsCovered(db: DB, calls: seq<Call>, a: AccountId)
    requires Inv(db) && ServiceRun(db, calls) && !BelowZero(db, a) && !EverUncovered(db, calls, a)
    requires a in Run(db, calls).accounts && Restricted(Run(db, calls).accounts[a])
    ensures var now := Run(db, calls);
            a in now.balances && 0 <= now.balances[a].available && 0 <= HeldSum(now, a) <= now.balances[a].ledger
  {
    var now := Run(db, calls);
    EverBelowIff(db, calls, a);
    if BelowZero(now, a) { EndIsReached(db, calls, a); }
    RunServes(db, calls);
    assert MoneyAt(now, a);
    HeldNonNegative(now, a);
  }

  lemma {:induction false} RunServes(db: DB, calls: seq<Call>)
    requires Inv(db) && ServiceRun(db, calls)
    ensures Inv(Run(db, calls))
    decreases |calls|
  {
    if calls != [] {
      StepKeepsInv(db, calls[0].op, calls[0].env);
      RunServes(Step(db, calls[0].op, calls[0].env), calls[1..]);
    }
  }

  // ---- debits in a deficit -----------------------------------------------------------

  /** A step other than a reversal that debits such an account found the amount available, or
      consumes a hold placed on it before. */
  lemma DebitCoveredOrHeld(db: DB, op: Op, env: Env, change: Change, a: AccountId)
    requires Inv(db) && Admissible(db, op, env) && ClearingInternal(db, op) && !op.Reverse?
    requires a in db.accounts && Restricted(db.accounts[a])
    requires change == Committed(db, op, env) && Debited(change) == Some(a)
    ensures a in db.balances && change.row.amount > 0
    ensures change.row.amount <= db.balances[a].available || ConsumesHoldOf(change, a)
  {
    CommittedOk(db, op, env);
    TakingsCovered(db, op, env, a);
    ChangeReady(db, change);
  }

  // A change that consumes a hold debits the held account, by what was held.
  lemma ConsumingDebits(db: DB, change: Change, a: AccountId)
    requires Inv(db) && ChangeOk(db, change) && ConsumesHoldOf(change, a)
    ensures Debited(change) == Some(a) && ActiveHold(db, change.id)
    ensures db.holds[change.id].account == a && db.holds[change.id].amount == change.row.amount
  {
    ChangeReady(db, change);
  }

  /** While such an account is below zero, a step other than a reversal debits it if and only
      if it finishes a pending transfer that holds the account's money, which consumes that
      hold. It takes nothing from what is available: nothing else is posted, held or liened. */
  lemma DebitInDeficitIff(db: DB, op: Op, env: Env, change: Change, a: AccountId)
    requires Inv(db) && Admissible(db, op, env) && ClearingInternal(db, op) && !op.Reverse?
    requires BelowZero(db, a) && change == Committed(db, op, env)
    ensures Debited(change) == Some(a) <==> FinishesHeld(db, op, env, a)
    ensures Debited(change) == Some(a) <==> ConsumesHoldOf(change, a)
    ensures ConsumesHoldOf(change, a) ==> ActiveHold(db, change.id) && db.holds[change.id].account == a
    ensures Taken(change, a) <= 0
  {
    CommittedOk(db, op, env);
    TakingsCovered(db, op, env, a);
    if Debited(change) == Some(a) {
      DebitCoveredOrHeld(db, op, env, change, a);
      DebitingFinishes(db, op, env, a);
    }
    if ConsumesHoldOf(change, a) { ConsumingDebits(db, change, a); }
    if FinishesHeld(db, op, env, a) { FinishingDebits(db, op, env, a); }
  }

  /** And it is below zero only because an earlier reversal of the run was not covered. */
  lemma DeficitNeedsReversal(db: DB, calls: seq<Call>, a: AccountId)
    requires Inv(db) && ServiceRun(db, calls) && !BelowZero(db, a) && BelowZero(Run(db, calls), a)
    ensures EverUncovered(db, calls, a)
  {
    EndIsReached(db, calls, a);
    EverBelowIff(db, calls, a);
  }

  // ---- which overdrafts carry the flag --------------------------------------------------

  // The deficit check a reversal makes: only of an inbound transfer, only of the account it
  // was recorded on, and of its ledger, whatever is held.
  predicate ChecksDeficit(db: DB, o: TransferId) {
    && o in db.transfers && db.transfers[o].direction == Inbound
    && db.transfers[o].account in db.accounts && db.transfers[o].account in db.balances
    && Restricted(db.accounts[db.transfers[o].account])
    && db.balances[db.transfers[o].account].ledger < db.transfers[o].amount
  }

  predicate Flags(change: Change) {
    (change.Insert? || change.Advance?) && change.row.ledgerStatus == ReversalDeficit
  }

  lemma FreshUnflagged(db: DB, input: RecordInput, env: Env)
    requires input.reversalOf.None?
    ensures RecordFresh(db, input, env).reply.Done? ==> !Flags(RecordFresh(db, input, env).reply.change)
  {
  }

  lemma SettleUnflagged(db: DB, id: TransferId, input: RecordInput, env: Env)
    requires input.reversalOf.None? && id in db.transfers
    ensures Settle(db, id, input, env).reply.Done? ==> !Flags(Settle(db, id, input, env).reply.change)
  {
  }

  lemma CompleteUnflagged(db: DB, id: TransferId, input: RecordInput, env: Env)
    requires input.reversalOf.None?
    ensures CompleteOutbound(db, id, input, env).reply.Done? ==>
      !Flags(CompleteOutbound(db, id, input, env).reply.change)
  {
  }

  lemma RecordUnflagged(db: DB, input: RecordInput, env: Env)
    requires input.reversalOf.None?
    ensures RecordTransfer(db, input, env).reply.Done? ==> !Flags(RecordTransfer(db, input, env).reply.change)
  {
    FreshUnflagged(db, input, env);
    if env.pendingPick.Some? && PendingMatch(db, env.pendingPick.value, input) {
      SettleUnflagged(db, env.pendingPick.value, input, env);
    }
  }

  lemma RequeryUnflagged(db: DB, id: TransferId, input: RecordInput, env: Env)
    requires RowsOk(db) && input.reversalOf.None?
    ensures RequeryTransfer(db, id, input, env).reply.Done? ==> !Flags(RequeryTransfer(db, id, input, env).reply.change)
  {
    if id in db.transfers {
      var known := WithReference(db.transfers[id], input);
      CompleteUnflagged(db, id, known, env);
      SettleUnflagged(db, id, known, env);
    }
  }

  // No request but a reversal ever flags.
  lemma OnlyReversalsFlag(db: DB, op: Op, env: Env)
    requires Inv(db) && Admissible(db, op, env) && !op.Reverse?
    ensures !Flags(Committed(db, op, env))
  {
    match op
    case Record(input) => RecordUnflagged(db, input, env);
    case Complete(id, input) => CompleteUnflagged(db, id, input, env);
    case Requery(id, input) => RequeryUnflagged(db, id, input, env);
    case _ =>
  }

  lemma ReversalFlagsIff(db: DB, input: ReverseInput, env: Env, change: Change)
    requires Inv(db) && FreshIds(db, env) && change == Committed(db, Reverse(input), env) && change.Insert?
    ensures Flags(change) <==> ChecksDeficit(db, input.transfer)
  {
    ReversalRow(db, input, env);
    assert RowOk(db, input.transfer);
  }

  /** A step commits a row marked reversal_deficit if and only if it is a reversal that goes
      through, of an inbound transfer, on a customer account without overdraft whose ledger
      is less than the amount. */
  lemma FlaggedIff(db: DB, op: Op, env: Env)
    requires Inv(db) && Admissible(db, op, env)
    ensures Flags(Committed(db, op, env))
       <==> op.Reverse? && GoesThrough(db, op.reverse, env) && ChecksDeficit(db, op.reverse.transfer)
  {
    if op.Reverse? { GoesThroughIff(db, op.reverse, env); }
    if !op.Reverse? {
      OnlyReversalsFlag(db, op, env);
    } else if Committed(db, op, env).Insert? {
      ReversalFlagsIff(db, op.reverse, env, Committed(db, op, env));
    } else {
      ReversalElse(db, op.reverse, env);
    }
  }

  /** So a step that takes the available balance below zero is flagged if and only if the
      transfer undone was inbound and its amount exceeds the ledger too, not merely what the
      holds leave available. */
  lemma BelowZeroFlaggedIff(db: DB, op: Op, env: Env, a: AccountId)
    requires Inv(db) && Admissible(db, op, env) && ClearingInternal(db, op)
    requires !BelowZero(db, a) && BelowZero(Step(db, op, env), a)
    ensures op.Reverse? && op.reverse.transfer in db.transfers && a in db.balances
    ensures Flags(Committed(db, op, env))
       <==> db.transfers[op.reverse.transfer].direction == Inbound
            && db.transfers[op.reverse.transfer].amount > db.balances[a].ledger
  {
    StepBelowIff(db, op, env, a);
    FlaggedIff(db, op, env);
    assert RowOk(db, op.reverse.transfer);
  }

  lemma HoldWithinSum(db: DB, id: TransferId)
    requires HoldsOk(db) && LiensOk(db) && RowsOk(db) && ActiveHold(db, id)
    ensures db.holds[id].amount <= HeldSum(db, db.holds[id].account)
  {
    var a := db.holds[id].account;
    forall i | i in db.holds ensures ActiveOn(a)(i, db.holds[i]) >= 0 {
      assert HoldOk(db, i);
      assert RowOk(db, i);
    }
    forall l | l in db.liens ensures ActiveOn(a)(l, db.liens[l]) >= 0 { assert LienOk(db, l); }
    SumOpen(db.holds, ActiveOn(a), id);
    SumNonNegative(db.holds - {id}, ActiveOn(a));
    SumNonNegative(db.liens, ActiveOn(a));
  }

  // The ledger falls, and ends below zero.
  predicate Overdraws(db: DB, next: DB, a: AccountId) {
    && a in db.balances && a in next.balances
    && next.balances[a].ledger < db.balances[a].ledger && next.balances[a].ledger < 0
  }

  // A debit other than a reversal's that is larger than the ledger completes a hold in a deficit.
  lemma LargeDebitConsumes(db: DB, op: Op, env: Env, change: Change, a: AccountId)
    requires Inv(db) && Admissible(db, op, env) && ClearingInternal(db, op) && !op.Reverse?
    requires a in db.accounts && Restricted(db.accounts[a])
    requires change == Committed(db, op, env) && Debited(change) == Some(a)
    requires a in db.balances && change.row.amount > db.balances[a].ledger
    ensures ConsumesHoldOf(change, a) && BelowZero(db, a)
  {
    DebitCoveredOrHeld(db, op, env, change, a);
    CommittedOk(db, op, env);
    assert MoneyAt(db, a);
    HeldNonNegative(db, a);
    if ConsumesHoldOf(change, a) {
      ConsumingDebits(db, change, a);
      HoldWithinSum(db, change.id);
    }
  }

  lemma OverdraftDebits(db: DB, change: Change, a: AccountId)
    requires Inv(db) && ChangeOk(db, change) && a in db.accounts && Restricted(db.accounts[a])
    ensures a in db.balances
    ensures Overdraws(db, Apply(db, change), a)
       <==> Debited(change) == Some(a) && change.row.amount > db.balances[a].ledger
  {
    CustomerMoves(db, change, a);
    if change.Insert? || change.Advance? { ChangeReady(db, change); }
  }

  // A reversal that goes through and takes back more than the ledger.
  predicate ReversesPastLedger(db: DB, op: Op, env: Env, a: AccountId)
    requires a in db.balances
  {
    && op.Reverse? && GoesThrough(db, op.reverse, env) && CreditedBy(db, op.reverse.transfer, a)
    && db.transfers[op.reverse.transfer].amount > db.balances[a].ledger
  }

  // A request that finishes a held transfer of more than the ledger.
  predicate FinishesPastLedger(db: DB, op: Op, env: Env, a: AccountId)
    requires a in db.balances
  {
    FinishesHeld(db, op, env, a) && op.input.amount > db.balances[a].ledger
  }

  lemma DebitIsInputs(db: DB, op: Op, env: Env, change: Change, a: AccountId)
    requires Inv(db) && Admissible(db, op, env) && !op.Reverse? && change == Committed(db, op, env)
    requires Debited(change) == Some(a)
    ensures (op.Record? || op.Complete? || op.Requery?) && change.row.amount == op.input.amount
  {
    if Sourced(db, op) { StepVetted(db, op, env); } else { UnsourcedPostsNothing(db, op, env); }
  }

  lemma ReversalOverdrawsIff(db: DB, op: Op, env: Env, change: Change, a: AccountId)
    requires Inv(db) && Admissible(db, op, env) && op.Reverse? && change == Committed(db, op, env) && a in db.balances
    ensures Debited(change) == Some(a) && change.row.amount > db.balances[a].ledger
      <==> ReversesPastLedger(db, op, env, a)
  {
    GoesThroughIff(db, op.reverse, env);
    if change.Insert? {
      ReversalTakes(db, op.reverse, env, change);
    } else {
      ReversalElse(db, op.reverse, env);
    }
  }

  lemma FinishOverdrawsIff(db: DB, op: Op, env: Env, change: Change, a: AccountId)
    requires Inv(db) && Admissible(db, op, env) && ClearingInternal(db, op) && !op.Reverse?
    requires a in db.accounts && Restricted(db.accounts[a]) && a in db.balances && change == Committed(db, op, env)
    ensures Debited(change) == Some(a) && change.row.amount > db.balances[a].ledger
      <==> FinishesPastLedger(db, op, env, a)
    ensures FinishesPastLedger(db, op, env, a) ==> BelowZero(db, a)
  {
    if FinishesHeld(db, op, env, a) { FinishingDebits(db, op, env, a); }
    if Debited(change) == Some(a) {
      DebitIsInputs(db, op, env, change, a);
      if change.row.amount > db.balances[a].ledger {
        LargeDebitConsumes(db, op, env, change, a);
        DebitingFinishes(db, op, env, a);
      }
    }
  }

  /** The ledger of a customer account without overdraft falls below zero, or further below, in
      exactly two ways: a reversal that goes through takes back more than the ledger, or a
      request finishes a held transfer of more than the ledger, on an account below zero
      already. The step is flagged if and only if it is the first and the transfer undone
      was inbound. */
  lemma OverdraftFlaggedIff(db: DB, op: Op, env: Env, change: Change, a: AccountId)
    requires Inv(db) && Admissible(db, op, env) && ClearingInternal(db, op) && change == Committed(db, op, env)
    requires a in db.accounts && Restricted(db.accounts[a])
    ensures a in db.balances
    ensures Overdraws(db, Apply(db, change), a)
       <==> ReversesPastLedger(db, op, env, a) || FinishesPastLedger(db, op, env, a)
    ensures FinishesPastLedger(db, op, env, a) ==> BelowZero(db, a)
    ensures Overdraws(db, Apply(db, change), a) ==>
      (Flags(change) <==> op.Reverse? && db.transfers[op.reverse.transfer].direction == Inbound)
  {
    CommittedOk(db, op, env);
    OverdraftDebits(db, change, a);
    FlaggedIff(db, op, env);
    if op.Reverse? {
      ReversalOverdrawsIff(db, op, env, change, a);
      if Overdraws(db, Apply(db, change), a) { OverdrawingReversal(db, op.reverse, env, change, a); }
    } else {
      FinishOverdrawsIff(db, op, env, change, a);
    }
  }

  lemma OverdrawingReversal(db: DB, input: ReverseInput, env: Env, change: Change, a: AccountId)
    requires Inv(db) && FreshIds(db, env) && change == Committed(db, Reverse(input), env) && Debited(change) == Some(a)
    requires a in db.accounts && Restricted(db.accounts[a]) && a in db.balances
    requires change.row.amount > db.balances[a].ledger
    ensures change.Insert? && input.transfer in db.transfers
    ensures ChecksDeficit(db, input.transfer) <==> db.transfers[input.transfer].direction == Inbound
  {
    if !change.Insert? { ReversalElse(db, input, env); }
    ReversalTakes(db, input, env, change);
    assert RowOk(db, input.transfer);
  }
}
