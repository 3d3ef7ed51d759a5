/** Finishing a pending transfer, by settlement, completion or requery: exactly when it
    succeeds or fails, and what that leaves behind. */
module Finishing {
  import opened Types
  import opened Ledger
  import opened Transfers
  import opened Steps
  import opened Invariant
  import opened Decisions
  import opened Effects

  // The request names the pending transfer's direction, account, amount and currency, another
  // account to post against, and no event already on record.
  predicate Matches(db: DB, id: TransferId, input: RecordInput) {
    && id in db.transfers && EventUnseen(db, input)
    && var row := db.transfers[id];
       && row.status == Pending && row.direction == input.direction && row.account == input.account
       && row.amount == input.amount && row.currency == input.currency
       && input.clearing in db.accounts && input.clearing != row.account
  }

  // Succeeding needs the controls; failing needs nothing.
  predicate MayEnd(db: DB, input: RecordInput, outcome: Status) {
    outcome == Succeeded ==> Allowed(db, input.account, input.clearing, input.direction)
  }

  predicate FinalWord(outcome: Status) {
    outcome == Succeeded || outcome == Failed
  }

  // ---- what it leaves behind -----------------------------------------------------------

  function EndedRow(row: Transfer, input: RecordInput, outcome: Status, reference: Text, env: Env): Transfer {
    row.(
      status := outcome,
      providerStatus := Carried(input),
      ledgerStatus := if outcome == Succeeded then Posted else NoPosting,
      reconciliation := if outcome == Succeeded then Matched else NoAction,
      reference := reference,
      event := if input.event.Some? then input.event else row.event,
      journal := if outcome == Succeeded then Some(env.journal) else None,
      failure := input.failure,
      updatedAt := env.now)
  }

  // Success posts, from the hold where there is one; failure gives the hold back.
  predicate EndedMoney(db: DB, next: DB, id: TransferId, input: RecordInput, outcome: Status, env: Env) {
    var held := input.direction == Outbound;
    && (held ==> id in db.holds)
    && (outcome == Succeeded ==>
          && next.journals == db.journals[env.journal :=
               Booked(id, input.direction, Payer(input), Payee(input), input.amount, input.currency)]
          && Pays(db, next, Payer(input), Payee(input), input.amount, env.journal, held)
          && next.holds == if held then db.holds[id := db.holds[id].(status := Consumed)] else db.holds)
    && (outcome == Failed && held ==>
          && next.journals == db.journals
          && Frees(db, next, input.account, input.amount)
          && next.holds == db.holds[id := db.holds[id].(status := Released)])
    && (outcome == Failed && !held ==> MoneyStill(db, next))
  }

  /** The tables after a pending transfer ended: its row, its event and its money, nothing else. */
  predicate Ended(db: DB, next: DB, id: TransferId, input: RecordInput, outcome: Status, reference: Text, env: Env) {
    && id in db.transfers
    && next.transfers == db.transfers[id := EndedRow(db.transfers[id], input, outcome, reference, env)]
    && next.events == EventsWith(db, input, id)
    && next.byKey == db.byKey && next.accounts == db.accounts && next.liens == db.liens
    && next.reversals == db.reversals
    && EndedMoney(db, next, id, input, outcome, env)
  }

  // The change that ends it so.
  predicate Ends(db: DB, change: Change, id: TransferId, input: RecordInput, outcome: Status, reference: Text,
                 env: Env) {
    && id in db.transfers
    && change == Advance(id, EndedRow(db.transfers[id], input, outcome, reference, env),
         if outcome == Succeeded then Some(Entry(env.journal, JournalFor(input, id))) else None,
         if input.direction != Outbound then KeepHold else if outcome == Succeeded then ConsumeHold else ReleaseHold,
         Reserve(input, id))
  }

  lemma EndingMoney(db: DB, change: Change, next: DB, id: TransferId, input: RecordInput, outcome: Status,
                    reference: Text, env: Env)
    requires AccountsOk(db) && HoldsOk(db) && Matches(db, id, input) && FinalWord(outcome)
    requires input.direction != Reversal && input.reversalOf.None? && db.transfers[id].reversalOf.None?
    requires input.account in db.accounts
    requires Ends(db, change, id, input, outcome, reference, env) && next == Apply(db, change)
    ensures EndedMoney(db, next, id, input, outcome, env)
  {
    assert PendingHeld(db, id);
    if input.direction == Outbound { assert HoldOk(db, id); }
    if outcome == Succeeded {
      JournalIsBooked(input, id);
      BookingPays(db, next, id, input.direction, Payer(input), Payee(input), input.amount, input.currency,
                  env.journal, input.direction == Outbound);
    }
  }

  lemma EndingLeaves(db: DB, change: Change, next: DB, id: TransferId, input: RecordInput, outcome: Status,
                     reference: Text, env: Env)
    requires AccountsOk(db) && HoldsOk(db) && RowsOk(db) && Matches(db, id, input) && FinalWord(outcome)
    requires input.direction != Reversal && input.reversalOf.None?
    requires Ends(db, change, id, input, outcome, reference, env) && next == Apply(db, change)
    ensures Ended(db, next, id, input, outcome, reference, env)
  {
    assert RowOk(db, id);
    EndingMoney(db, change, next, id, input, outcome, reference, env);
  }

  // A reply that ends the transfer with this outcome, and otherwise none that does.
  predicate EndsOr(db: DB, reply: Reply, id: TransferId, input: RecordInput, outcome: Status, reference: Text, env: Env,
                   fine: bool)
  {
    if fine then reply.Done? && reply.id == id && Ends(db, reply.change, id, input, outcome, reference, env)
    else reply.Done? ==> !(reply.change.Advance? && reply.change.row.status == outcome)
  }

  // ---- settlement ----------------------------------------------------------------------

  // The status is the outcome, and the provider status a known word.
  predicate SaysPlainly(input: RecordInput, outcome: Status) {
    input.status == outcome && KnownWord(Carried(input))
  }

  lemma PendingReady(db: DB, id: TransferId)
    requires Inv(db) && id in db.transfers && db.transfers[id].status == Pending
    ensures db.transfers[id].account in db.accounts && db.transfers[id].account in db.balances
    ensures db.transfers[id].amount > 0 && db.transfers[id].reversalOf.None? && db.transfers[id].direction != Reversal
    ensures db.transfers[id].direction == Outbound ==> ActiveHold(db, id)
    ensures db.transfers[id].direction != Outbound ==> !ActiveHold(db, id)
  {
    assert RowOk(db, id) && PendingHeld(db, id);
    if id in db.holds { assert HoldOk(db, id); }
  }

  /** Settling a pending transfer makes it succeed or fail if and only if the request matches
      it and says so plainly, and, to succeed, the controls allow it: a hold is asked only of
      outbound transfers, which have one. */
  lemma SettlesIff(db: DB, id: TransferId, input: RecordInput, env: Env, outcome: Status)
    requires Inv(db) && input.direction != Reversal && input.reversalOf.None? && FinalWord(outcome)
    requires id in db.transfers && db.transfers[id].status == Pending
    ensures EndsOr(db, Settle(db, id, input, env).reply, id, input, outcome, db.transfers[id].reference, env,
                   Matches(db, id, input) && SaysPlainly(input, outcome) && MayEnd(db, input, outcome))
  {
    PendingReady(db, id);
    if input.clearing in db.accounts && input.clearing != input.account && input.account in db.accounts {
      ControlsAllowIff(db, input);
    }
  }

  // ---- completion ----------------------------------------------------------------------

  // The same, with a blank status filled in from the provider status.
  predicate SaysInEffect(input: RecordInput, outcome: Status) {
    && KnownWord(Carried(input))
    && (if input.status == NoStatus then Carried(input) else input.status) == outcome
  }

  predicate Completes(db: DB, id: TransferId, input: RecordInput, outcome: Status) {
    && Matches(db, id, input) && input.direction == Outbound
    && db.transfers[id].provider == input.provider
    && (input.fingerprint == NoFingerprint || db.transfers[id].fingerprint == NoFingerprint
        || input.fingerprint == db.transfers[id].fingerprint)
    && SaysInEffect(input, outcome) && MayEnd(db, input, outcome)
  }

  // What the row's reference becomes.
  function ReferenceOf(row: Transfer, input: RecordInput): Text {
    if input.reference != Blank then input.reference else row.reference
  }

  lemma CompletesReply(db: DB, id: TransferId, input: RecordInput, env: Env, outcome: Status)
    requires Inv(db) && input.direction == Outbound && input.reversalOf.None? && FinalWord(outcome)
    requires id in db.transfers && db.transfers[id].status == Pending
    ensures EndsOr(db, CompleteOutbound(db, id, input, env).reply, id, input, outcome,
                   ReferenceOf(db.transfers[id], input), env, Completes(db, id, input, outcome))
  {
    PendingReady(db, id);
    if input.clearing in db.accounts && input.clearing != input.account && input.account in db.accounts {
      ControlsAllowIff(db, input);
    }
  }

  // ---- requery -------------------------------------------------------------------------

  // The transfer can be asked about, and the request is about it.
  predicate Requeried(db: DB, id: TransferId, input: RecordInput) {
    && id in db.transfers
    && var row := db.transfers[id];
       && row.provider != LedgerInternal && row.provider == input.provider
       && row.ledgerStatus == LedgerPending
       && (row.providerStatus == Pending || row.providerStatus == ProviderUnknown)
       && (if row.reference == Blank then input.reference != Blank
           else input.reference == Blank || input.reference == row.reference)
  }

  predicate RequeryEnds(db: DB, id: TransferId, input: RecordInput, outcome: Status) {
    && Requeried(db, id, input)
    && if input.direction == Outbound then Completes(db, id, input, outcome)
       else Matches(db, id, input) && SaysPlainly(input, outcome) && MayEnd(db, input, outcome)
  }

  lemma RequeryReply(db: DB, id: TransferId, input: RecordInput, known: RecordInput, env: Env, outcome: Status)
    requires Inv(db) && input.direction != Reversal && input.reversalOf.None? && FinalWord(outcome)
    requires id in db.transfers && db.transfers[id].status == Pending && known == WithReference(db.transfers[id], input)
    ensures EndsOr(db, RequeryTransfer(db, id, input, env).reply, id, known, outcome,
                   EndReference(db.transfers[id], input), env, RequeryEnds(db, id, input, outcome))
  {
    PendingReady(db, id);
    SameEnding(db, id, input, known, outcome, env);
    if input.direction == Outbound {
      CompletesReply(db, id, known, env, outcome);
    } else {
      SettlesIff(db, id, known, env, outcome);
    }
  }

  // Only an outbound transfer takes its reference from the requery.
  function EndReference(row: Transfer, input: RecordInput): Text {
    if input.direction == Outbound then ReferenceOf(row, input) else row.reference
  }

  // Filling in the reference changes nothing else of what a request without an event does.
  lemma SameEnding(db: DB, id: TransferId, input: RecordInput, known: RecordInput, outcome: Status, env: Env)
    requires id in db.transfers && known == WithReference(db.transfers[id], input)
    ensures Completes(db, id, known, outcome) <==> Completes(db, id, input, outcome)
    ensures Matches(db, id, known) && SaysPlainly(known, outcome) && MayEnd(db, known, outcome)
       <==> Matches(db, id, input) && SaysPlainly(input, outcome) && MayEnd(db, input, outcome)
  {
  }

  // ---- the same on the tables -----------------------------------------------------------

  predicate HasStatus(db: DB, id: TransferId, status: Status) {
    id in db.transfers && db.transfers[id].status == status
  }

  // A reply that leaves other transfers alone.
  predicate OnlyMoves(db: DB, reply: Reply, id: TransferId) {
    reply.Done? && reply.change.Advance? ==> reply.change.id == id
  }

  lemma ReplyEnds(db: DB, reply: Reply, change: Change, next: DB, id: TransferId, input: RecordInput, outcome: Status,
                  reference: Text, env: Env, fine: bool)
    requires EndsOr(db, reply, id, input, outcome, reference, env, fine) && FinalWord(outcome)
    requires HasStatus(db, id, Pending) && change == (if reply.Done? then reply.change else NoChange)
    requires next == Apply(db, change) && ChangeOk(db, change)
    ensures HasStatus(next, id, outcome) <==> fine
    ensures fine ==> Ends(db, change, id, input, outcome, reference, env)
  {
  }

  /** Completing a pending outbound transfer makes it succeed or fail if and only if the request
      names it, its provider and its payload, its statuses come to that outcome, its event is
      new and, to succeed, the controls allow it. It then leaves exactly that. */
  lemma CompletionEnds(db: DB, id: TransferId, input: RecordInput, env: Env, outcome: Status, next: DB)
    requires Inv(db) && Admissible(db, Complete(id, input), env) && FinalWord(outcome) && HasStatus(db, id, Pending)
    requires next == Step(db, Complete(id, input), env)
    ensures HasStatus(next, id, outcome) <==> Completes(db, id, input, outcome)
    ensures Completes(db, id, input, outcome) ==>
      Ended(db, next, id, input, outcome, ReferenceOf(db.transfers[id], input), env)
  {
    var reference := ReferenceOf(db.transfers[id], input);
    CompletesReply(db, id, input, env, outcome);
    CommittedOk(db, Complete(id, input), env);
    var change := Committed(db, Complete(id, input), env);
    ReplyEnds(db, CompleteOutbound(db, id, input, env).reply, change, next, id, input, outcome, reference, env,
              Completes(db, id, input, outcome));
    if Completes(db, id, input, outcome) { EndingLeaves(db, change, next, id, input, outcome, reference, env); }
  }

  /** Requerying a pending transfer makes it succeed or fail if and only if it is an external
      one still open to that, the request is about it, and the outcome is said: in effect for
      an outbound transfer, plainly for an inbound one. */
  lemma RequeryEndsIff(db: DB, id: TransferId, input: RecordInput, env: Env, outcome: Status, next: DB)
    requires Inv(db) && Admissible(db, Requery(id, input), env) && FinalWord(outcome) && HasStatus(db, id, Pending)
    requires next == Step(db, Requery(id, input), env)
    ensures HasStatus(next, id, outcome) <==> RequeryEnds(db, id, input, outcome)
    ensures RequeryEnds(db, id, input, outcome) ==>
      Ended(db, next, id, WithReference(db.transfers[id], input), outcome, EndReference(db.transfers[id], input), env)
  {
    var known, reference := WithReference(db.transfers[id], input), EndReference(db.transfers[id], input);
    RequeryReply(db, id, input, known, env, outcome);
    SameEnding(db, id, input, known, outcome, env);
    CommittedOk(db, Requery(id, input), env);
    var change := Committed(db, Requery(id, input), env);
    ReplyEnds(db, RequeryTransfer(db, id, input, env).reply, change, next, id, known, outcome, reference, env,
              RequeryEnds(db, id, input, outcome));
    if RequeryEnds(db, id, input, outcome) { EndingLeaves(db, change, next, id, known, outcome, reference, env); }
  }

  // A final request of an unused key that found this pending transfer by its reference.
  predicate Found(db: DB, id: TransferId, input: RecordInput, env: Env) {
    && input.key !in db.byKey && env.pendingPick == Some(id) && input.reference != Blank && input.status != Pending
    && id in db.transfers
    && db.transfers[id].provider == input.provider && db.transfers[id].reference == input.reference
  }

  predicate RecordEnds(db: DB, id: TransferId, input: RecordInput, env: Env, outcome: Status) {
    Found(db, id, input, env) && Matches(db, id, input) && SaysPlainly(input, outcome) && MayEnd(db, input, outcome)
  }

  // A record that advances a transfer found it and settles it.
  lemma AdvancesFound(db: DB, input: RecordInput, env: Env)
    requires KeysOk(db) && EventsOk(db)
    ensures var reply := RecordTransfer(db, input, env).reply;
            reply.Done? && reply.change.Advance? ==>
              && env.pendingPick.Some? && Found(db, env.pendingPick.value, input, env)
              && HasStatus(db, env.pendingPick.value, Pending)
              && reply == Settle(db, env.pendingPick.value, input, env).reply
  {
    assert input.key in db.byKey ==> KeyOk(db, input.key);
  }

  lemma FoundSettles(db: DB, id: TransferId, input: RecordInput, env: Env)
    requires Found(db, id, input, env) && Matches(db, id, input)
    ensures RecordTransfer(db, input, env).reply == Settle(db, id, input, env).reply
  {
  }

  lemma RecordReply(db: DB, id: TransferId, input: RecordInput, env: Env, outcome: Status)
    requires Inv(db) && input.direction != Reversal && input.reversalOf.None? && FinalWord(outcome)
    requires HasStatus(db, id, Pending)
    ensures var reply := RecordTransfer(db, input, env).reply;
            if RecordEnds(db, id, input, env, outcome)
            then reply.Done? && Ends(db, reply.change, id, input, outcome, db.transfers[id].reference, env)
            else reply.Done? && reply.change.Advance? && reply.change.id == id ==> reply.change.row.status != outcome
  {
    SettlesIff(db, id, input, env, outcome);
    AdvancesFound(db, input, env);
    if RecordEnds(db, id, input, env, outcome) {
      FoundSettles(db, id, input, env);
    } else if env.pendingPick == Some(id) {
      SettleIds(db, id, input, env);
    } else if env.pendingPick.Some? && HasStatus(db, env.pendingPick.value, Pending) {
      SettleIds(db, env.pendingPick.value, input, env);
    }
  }

  lemma SettleIds(db: DB, id: TransferId, input: RecordInput, env: Env)
    requires id in db.transfers
    ensures OnlyMoves(db, Settle(db, id, input, env).reply, id)
  {
  }

  /** Recording a request makes a pending transfer succeed or fail if and only if its key is
      unused, it found that transfer by provider and reference, names it in every field, says
      the outcome plainly, carries no event on record and, to succeed, the controls allow it. */
  lemma SettlementEnds(db: DB, id: TransferId, input: RecordInput, env: Env, outcome: Status, next: DB)
    requires Inv(db) && Admissible(db, Record(input), env) && FinalWord(outcome) && HasStatus(db, id, Pending)
    requires next == Step(db, Record(input), env)
    ensures HasStatus(next, id, outcome) <==> RecordEnds(db, id, input, env, outcome)
    ensures RecordEnds(db, id, input, env, outcome) ==>
      Ended(db, next, id, input, outcome, db.transfers[id].reference, env)
  {
    RecordReply(db, id, input, env, outcome);
    CommittedOk(db, Record(input), env);
    var change := Committed(db, Record(input), env);
    RecordKind(db, input, env);
    if RecordEnds(db, id, input, env, outcome) {
      EndingLeaves(db, change, next, id, input, outcome, db.transfers[id].reference, env);
    }
    InsertOrAdvance(db, change, next, id, outcome);
  }

  // A transfer's status changes only where it is advanced.
  lemma InsertOrAdvance(db: DB, change: Change, next: DB, id: TransferId, outcome: Status)
    requires HasStatus(db, id, Pending) && FinalWord(outcome) && ChangeOk(db, change) && next == Apply(db, change)
    ensures HasStatus(next, id, outcome) <==> change.Advance? && change.id == id && change.row.status == outcome
  {
  }

  /** So a pending inbound transfer does arrive: settled as succeeded, its account's ledger and
      available balance rise by the amount. */
  lemma PendingCreditArrives(db: DB, id: TransferId, input: RecordInput, env: Env, next: DB)
    requires Inv(db) && Admissible(db, Record(input), env) && next == Step(db, Record(input), env)
    requires Found(db, id, input, env) && Matches(db, id, input) && input.direction == Inbound
    requires input.status == Succeeded && (input.providerStatus == NoStatus || input.providerStatus == Succeeded)
    requires db.accounts[input.clearing].kind == Internal
    requires input.account in db.accounts && db.accounts[input.account].kind == Customer
    requires db.accounts[input.account].status == ActiveAccount || db.accounts[input.account].status == PostNoDebit
    ensures HasStatus(next, id, Succeeded) && input.account in db.balances && input.account in next.balances
    ensures next.balances[input.account].ledger == db.balances[input.account].ledger + input.amount
    ensures next.balances[input.account].available == db.balances[input.account].available + input.amount
  {
    SettlementEnds(db, id, input, env, Succeeded, next);
  }

  // ---- what leaves it pending ------------------------------------------------------------

  // Unknown at the provider, or pending in effect.
  predicate SaysWait(input: RecordInput) {
    Carried(input) == ProviderUnknown || SaysInEffect(input, Pending)
  }

  // Still pending: only labels, reference, event and reason are new.
  function WaitingRow(row: Transfer, input: RecordInput, reference: Text, event: Option<EventId>, failure: Text,
                      env: Env): Transfer {
    row.(
      providerStatus := Carried(input),
      ledgerStatus := LedgerPending,
      reconciliation := if Carried(input) == ProviderUnknown then ManualReview else ReconciliationPending,
      reference := reference,
      event := event,
      failure := failure,
      updatedAt := env.now)
  }

  predicate CompletionWaits(db: DB, id: TransferId, input: RecordInput) {
    && Matches(db, id, input) && input.direction == Outbound
    && db.transfers[id].provider == input.provider
    && (input.fingerprint == NoFingerprint || db.transfers[id].fingerprint == NoFingerprint
        || input.fingerprint == db.transfers[id].fingerprint)
    && SaysWait(input)
  }

  // The change of a completion that says to wait.
  predicate Relabels(db: DB, change: Change, id: TransferId, input: RecordInput, env: Env) {
    && id in db.transfers
    && change == Advance(id,
         WaitingRow(db.transfers[id], input, ReferenceOf(db.transfers[id], input),
                    if input.event.Some? then input.event else db.transfers[id].event, input.failure, env),
         None, KeepHold, Reserve(input, id))
  }

  lemma WaitsReply(db: DB, id: TransferId, input: RecordInput, env: Env)
    requires Inv(db) && input.direction == Outbound && input.reversalOf.None? && HasStatus(db, id, Pending)
    requires !Completes(db, id, input, Succeeded) && !Completes(db, id, input, Failed)
    ensures var reply := CompleteOutbound(db, id, input, env).reply;
            if CompletionWaits(db, id, input) then reply.Done? && Relabels(db, reply.change, id, input, env)
            else reply.Done? ==> reply.change == NoChange
  {
    PendingReady(db, id);
    assert RowOk(db, id);
    if input.clearing in db.accounts && input.clearing != input.account && input.account in db.accounts {
      ControlsAllowIff(db, input);
    }
  }

  /** A completion that says to wait relabels the row and moves no money; one that neither
      says so nor ends the transfer changes nothing at all. */
  lemma CompletionElse(db: DB, id: TransferId, input: RecordInput, env: Env, change: Change, next: DB)
    requires Inv(db) && Admissible(db, Complete(id, input), env) && HasStatus(db, id, Pending)
    requires change == Committed(db, Complete(id, input), env) && next == Apply(db, change)
    requires !Completes(db, id, input, Succeeded) && !Completes(db, id, input, Failed)
    ensures MoneyStill(db, next)
    ensures if CompletionWaits(db, id, input)
            then Relabels(db, change, id, input, env) && next.transfers == db.transfers[id := change.row]
                 && next.events == EventsWith(db, input, id)
            else next == db
  {
    WaitsReply(db, id, input, env);
  }

  predicate RequeryWaits(db: DB, id: TransferId, input: RecordInput) {
    && Requeried(db, id, input) && SaysWait(input)
    && var row := db.transfers[id];
       && row.direction == Inbound == input.direction && row.account == input.account
       && row.amount == input.amount && row.currency == input.currency
  }

  function RefreshedRow(row: Transfer, input: RecordInput, env: Env): Transfer {
    WaitingRow(row, input, ReferenceOf(row, input), row.event,
               if Carried(input) == ProviderUnknown && input.failure == Blank
               then Word(UnknownAtProvider) else input.failure,
               env)
  }

  lemma RefreshReply(db: DB, id: TransferId, input: RecordInput, env: Env)
    requires Inv(db) && HasStatus(db, id, Pending) && RequeryWaits(db, id, input)
    ensures RequeryTransfer(db, id, input, env).reply
         == Done(Advance(id, RefreshedRow(db.transfers[id], input, env), None, KeepHold, None), id, false)
  {
    PendingReady(db, id);
    assert RowOk(db, id);
  }

  /** A requery that leaves a pending inbound transfer pending relabels its row. */
  lemma InboundRequeryWaits(db: DB, id: TransferId, input: RecordInput, env: Env, change: Change, next: DB)
    requires Inv(db) && HasStatus(db, id, Pending) && RequeryWaits(db, id, input)
    requires change == Committed(db, Requery(id, input), env) && next == Apply(db, change)
    ensures next == db.(transfers := db.transfers[id := RefreshedRow(db.transfers[id], input, env)])
  {
    RefreshReply(db, id, input, env);
    assert RowOk(db, id);
  }

  // ---- what comes too late ----------------------------------------------------------------

  // The request is about this outbound transfer.
  predicate CompletionNames(row: Transfer, input: RecordInput) {
    && row.direction == Outbound && row.account == input.account && row.amount == input.amount
    && row.currency == input.currency && row.provider == input.provider
    && (input.fingerprint == NoFingerprint || row.fingerprint == NoFingerprint || input.fingerprint == row.fingerprint)
  }

  /** A completion of a transfer that is final already is answered with it if it is about it,
      and refused otherwise. */
  lemma LateCompletionAnswered(db: DB, id: TransferId, input: RecordInput, env: Env)
    requires id in db.transfers && db.transfers[id].status != Pending
    ensures Exec(db, Complete(id, input), env).reply
         == if CompletionNames(db.transfers[id], input) then Done(NoChange, id, false) else Fail(Conflict)
  {
  }

  // The requery is about this external transfer, by its reference if both have one.
  predicate RequeryNames(row: Transfer, input: RecordInput) {
    && row.provider != LedgerInternal && row.provider == input.provider && row.direction == input.direction
    && row.account == input.account && row.amount == input.amount && row.currency == input.currency
    && (row.reference != Blank || input.reference != Blank)
    && (row.reference == Blank || input.reference == Blank || row.reference == input.reference)
  }

  /** So is a requery. */
  lemma LateRequeryAnswered(db: DB, id: TransferId, input: RecordInput, env: Env)
    requires id in db.transfers && db.transfers[id].status != Pending
    ensures if RequeryNames(db.transfers[id], input)
            then Exec(db, Requery(id, input), env).reply == Done(NoChange, id, false)
            else Exec(db, Requery(id, input), env).reply.Fail?
  {
  }
}
