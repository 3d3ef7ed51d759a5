/** What a reversal leaves behind, and which reversal requests are answered. */
module Reversals {
  import opened Types
  import opened Ledger
  import opened Steps
  import opened Invariant
  import opened Decisions
  import opened Funds
  import opened Effects
  import opened Guards

  // The account the transfer credited pays back to the one it debited.
  function PaysBack(db: DB, o: TransferId): AccountId
    requires Posts(db, o) && |JournalOf(db, o).postings| == 2
  {
    JournalOf(db, o).postings[1].account
  }

  function PaidBack(db: DB, o: TransferId): AccountId
    requires Posts(db, o) && |JournalOf(db, o).postings| == 2
  {
    JournalOf(db, o).postings[0].account
  }

  // The reversal flags an inbound transfer on a restricted account that the ledger does not cover.
  predicate Flagged(db: DB, original: Transfer)
    requires original.account in db.accounts && original.account in db.balances
  {
    && original.direction == Inbound
    && db.accounts[original.account].kind == Customer && !db.accounts[original.account].allowNegative
    && db.balances[original.account].ledger < original.amount
  }

  function ReversalProvider(original: Transfer, input: ReverseInput): Provider {
    if input.provider.Some? then input.provider.value else original.provider
  }

  function ReversalReference(original: Transfer, input: ReverseInput): Text {
    if input.reference != Blank then input.reference
    else if original.reference != Blank then ReversalText(original.reference)
    else ReversalText(IdText(input.transfer))
  }

  // Everything about the row but its fingerprint.
  predicate ReversalRowIs(db: DB, row: Transfer, original: Transfer, input: ReverseInput, env: Env)
    requires original.account in db.accounts && original.account in db.balances
  {
    && row.account == original.account && row.direction == Reversal && row.status == Succeeded
    && row.providerStatus == Succeeded
    && row.ledgerStatus == (if Flagged(db, original) then ReversalDeficit else Posted)
    && row.reconciliation == (if Flagged(db, original) then ManualReview else Matched)
    && row.amount == original.amount && row.currency == original.currency && row.key == input.key
    && row.provider == ReversalProvider(original, input) && row.reference == ReversalReference(original, input)
    && row.event == input.event && row.journal == Some(env.journal) && row.reversalOf == Some(input.transfer)
    && row.failure == input.failure && row.createdAt == env.now && row.updatedAt == env.now
  }

  lemma ReversalRowFields(db: DB, input: ReverseInput, env: Env, change: Change)
    requires Inv(db) && FreshIds(db, env) && change == Committed(db, Reverse(input), env) && change.Insert?
    ensures input.transfer in db.transfers
    ensures var original := db.transfers[input.transfer];
            && original.account in db.accounts && original.account in db.balances
            && ReversalRowIs(db, change.row, original, input, env)
            && change.id == env.transfer && change.hold == KeepHold
            && change.entry.Some? && change.entry.value.id == env.journal
            && change.event.Some? == input.event.Some?
            && (input.event.Some? ==>
                && change.event.value.key == EventKey(ReversalProvider(original, input), input.event.value)
                && change.event.value.event.transfer == Some(env.transfer)
                && change.event.value.event.reference == ReversalReference(original, input))
  {
    ReversalRow(db, input, env);
    assert RowOk(db, input.transfer);
  }

  lemma ReversalJournal(db: DB, input: ReverseInput, env: Env, change: Change)
    requires Inv(db) && FreshIds(db, env) && change == Committed(db, Reverse(input), env) && change.Insert?
    ensures Posts(db, input.transfer) && |JournalOf(db, input.transfer).postings| == 2
    ensures PaysBack(db, input.transfer) != PaidBack(db, input.transfer)
    ensures PaysBack(db, input.transfer) in db.accounts && PaidBack(db, input.transfer) in db.accounts
    ensures change.entry == Some(Entry(env.journal,
      Booked(env.transfer, Reversal, PaysBack(db, input.transfer), PaidBack(db, input.transfer),
             db.transfers[input.transfer].amount, db.transfers[input.transfer].currency)))
  {
    ReversalRow(db, input, env);
    assert RowOk(db, input.transfer) && JournalOk(db, db.transfers[input.transfer].journal.value);
  }

  /** A reversal that goes through leaves exactly this: a succeeded row linked to the original,
      on record as its reversal, and a journal that pays the amount back between the same two
      accounts; no hold moves. */
  lemma ReversalLeaves(db: DB, input: ReverseInput, env: Env, change: Change, next: DB)
    requires Inv(db) && FreshIds(db, env) && GoesThrough(db, input, env)
    requires change == Committed(db, Reverse(input), env) && next == Apply(db, change)
    ensures change.Insert? && db.transfers[input.transfer].account in db.accounts
    ensures db.transfers[input.transfer].account in db.balances
    ensures ReversalRowIs(db, change.row, db.transfers[input.transfer], input, env)
    ensures next.transfers == db.transfers[env.transfer := change.row]
    ensures next.byKey == db.byKey[input.key := env.transfer]
    ensures next.reversals == db.reversals[input.transfer := env.transfer]
    ensures next.holds == db.holds && next.liens == db.liens && next.accounts == db.accounts
    ensures Posts(db, input.transfer) && |JournalOf(db, input.transfer).postings| == 2
    ensures next.journals == db.journals[env.journal :=
      Booked(env.transfer, Reversal, PaysBack(db, input.transfer), PaidBack(db, input.transfer),
             db.transfers[input.transfer].amount, db.transfers[input.transfer].currency)]
    ensures Pays(db, next, PaysBack(db, input.transfer), PaidBack(db, input.transfer),
                 db.transfers[input.transfer].amount, env.journal, false)
  {
    GoesThroughIff(db, input, env);
    ReversalRowFields(db, input, env, change);
    ReversalJournal(db, input, env, change);
    ReversalTables(db, change, next, env.transfer, env.journal, PaysBack(db, input.transfer),
                   PaidBack(db, input.transfer), db.transfers[input.transfer].amount,
                   db.transfers[input.transfer].currency);
  }

  lemma ReversalTables(db: DB, change: Change, next: DB, id: TransferId, journal: JournalId, from: AccountId,
                       to: AccountId, amount: int, currency: Currency)
    requires AccountsOk(db) && next == Apply(db, change)
    requires change.Insert? && change.hold == KeepHold && change.id == id
    requires change.row.direction == Reversal && change.row.reversalOf.Some? && change.row.status == Succeeded
    requires change.entry == Some(Entry(journal, Booked(id, Reversal, from, to, amount, currency)))
    requires from in db.accounts && to in db.accounts && from != to
    ensures next.transfers == db.transfers[id := change.row] && next.byKey == db.byKey[change.row.key := id]
    ensures next.reversals == db.reversals[change.row.reversalOf.value := id]
    ensures next.holds == db.holds && next.liens == db.liens && next.accounts == db.accounts
    ensures next.journals == db.journals[journal := Booked(id, Reversal, from, to, amount, currency)]
    ensures Pays(db, next, from, to, amount, journal, false)
  {
    BookingPays(db, next, id, Reversal, from, to, amount, currency, journal, false);
  }

  lemma AnsweredReversal(db: DB, input: ReverseInput, env: Env)
    requires Inv(db) && FreshIds(db, env) && Exec(db, Reverse(input), env).reply.Done?
    requires !Committed(db, Reverse(input), env).Insert?
    ensures input.transfer in db.reversals
    ensures ReversedUnder(db, input.transfer, db.reversals[input.transfer], input.key)
  {
    ReverseOk(db, input, env);
    assert ReversalOk(db, input.transfer);
    assert RowOk(db, input.transfer);
  }

  /** A reversal request is answered with a transfer if and only if it goes through, or the
      transfer was reversed already under this very key; every other one fails. */
  lemma ReversalAnswersIff(db: DB, input: ReverseInput, env: Env)
    requires Inv(db) && FreshIds(db, env)
    ensures Exec(db, Reverse(input), env).reply.Done?
       <==> GoesThrough(db, input, env)
            || (input.transfer in db.reversals
                && ReversedUnder(db, input.transfer, db.reversals[input.transfer], input.key))
  {
    GoesThroughIff(db, input, env);
    if Exec(db, Reverse(input), env).reply.Done? && !Committed(db, Reverse(input), env).Insert? {
      AnsweredReversal(db, input, env);
    }
    if input.transfer in db.reversals && ReversedUnder(db, input.transfer, db.reversals[input.transfer], input.key) {
      ReversedReplays(db, input, db.reversals[input.transfer], env);
    }
  }
}
