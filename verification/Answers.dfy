/** What each answer of a provider does to the transfer it is about. */
module Answers {
  import opened Types
  import opened Transfers
  import opened Steps
  import opened Invariant
  import opened Effects
  import opened Finishing
  import opened Provider

  // ---- answers to an initiated transfer --------------------------------------------------

  // The provider status is left out or is one of the three known words.
  predicate NoOddWord(result: ProviderResult) {
    result.providerStatus == NoStatus || KnownWord(result.providerStatus)
  }

  // A blank status counts as failed.
  predicate SaysFailed(result: ProviderResult) {
    (result.status == Failed || result.status == NoStatus) && NoOddWord(result)
  }

  predicate SaysSucceeded(result: ProviderResult) {
    result.status == Succeeded && NoOddWord(result)
  }

  lemma CompletionInputSays(intent: RecordInput, result: ProviderResult)
    ensures SaysInEffect(CompletionInput(intent, result), Failed) <==> SaysFailed(result)
    ensures SaysInEffect(CompletionInput(intent, result), Succeeded) <==> SaysSucceeded(result)
    ensures var input := CompletionInput(intent, result);
            && input.account == intent.account && input.clearing == intent.clearing && input.amount == intent.amount
            && input.currency == intent.currency && input.direction == intent.direction
            && input.provider == intent.provider && input.fingerprint == intent.fingerprint
            && input.event == result.event && input.failure == result.failure && input.reversalOf == intent.reversalOf
            && input.reference == (if result.reference != Blank then result.reference else intent.reference)
            && input.key == intent.key
  {
  }

  // The transfer failed and its money is free again.
  predicate FailedAndFreed(db: DB, next: DB, id: TransferId, failure: Text) {
    && id in db.transfers && id in next.transfers && id in db.holds
    && next.transfers[id].status == Failed && next.transfers[id].ledgerStatus == NoPosting
    && next.transfers[id].reconciliation == NoAction && next.transfers[id].journal.None?
    && next.transfers[id].failure == failure
    && next.journals == db.journals
    && next.holds == db.holds[id := db.holds[id].(status := Released)]
    && Frees(db, next, db.transfers[id].account, db.transfers[id].amount)
  }

  // The row takes over what the answer names, and the event is on record for it.
  predicate Carries(db: DB, next: DB, id: TransferId, intent: RecordInput, result: ProviderResult) {
    && id in db.transfers && id in next.transfers
    && next.transfers[id].reference == (if result.reference != Blank then result.reference
                                        else if intent.reference != Blank then intent.reference
                                        else db.transfers[id].reference)
    && next.transfers[id].event == (if result.event.Some? then result.event else db.transfers[id].event)
    && (result.event.Some? ==>
          var key := EventKey(intent.provider, result.event.value);
          key in next.events && next.events[key].transfer == Some(id))
  }

  lemma IntentCompletes(db: DB, id: TransferId, intent: RecordInput, result: ProviderResult, outcome: Status)
    requires Inv(db) && PendingIntent(db, id, intent) && FinalWord(outcome)
    ensures var input := CompletionInput(intent, result);
            Completes(db, id, input, outcome)
            <==> SaysInEffect(input, outcome) && NewEvent(db, intent, result) && MayEnd(db, input, outcome)
  {
    CompletionInputSays(intent, result);
    assert RowOk(db, id);
  }

  lemma IntentAdmitted(db: DB, id: TransferId, intent: RecordInput, result: ProviderResult, env: Env)
    requires PendingIntent(db, id, intent) && FreshIds(db, env)
    ensures Admissible(db, Complete(id, CompletionInput(intent, result)), env)
  {
  }

  /** Whatever the provider answers, completing a pending intent fails it if and only if the
      answer says failed, or leaves the status blank, with a provider status blank or known,
      and its event is new. Then its money is free again and nothing was posted. */
  lemma AnswerFailsIff(db: DB, id: TransferId, intent: RecordInput, result: ProviderResult, env: Env, next: DB)
    requires Inv(db) && FreshIds(db, env) && PendingIntent(db, id, intent)
    requires next == Step(db, Complete(id, CompletionInput(intent, result)), env)
    ensures HasStatus(next, id, Failed) <==> SaysFailed(result) && NewEvent(db, intent, result)
    ensures HasStatus(next, id, Failed) ==>
      FailedAndFreed(db, next, id, result.failure) && Carries(db, next, id, intent, result)
  {
    var input := CompletionInput(intent, result);
    CompletionInputSays(intent, result);
    IntentCompletes(db, id, intent, result, Failed);
    IntentAdmitted(db, id, intent, result, env);
    CompletionEnds(db, id, input, env, Failed, next);
  }

  /** It succeeds if and only if the answer says succeeded, with a provider status blank or
      known, its event is new and the controls allow it. Then the hold pays. */
  lemma AnswerSucceedsIff(db: DB, id: TransferId, intent: RecordInput, result: ProviderResult, env: Env, next: DB)
    requires Inv(db) && FreshIds(db, env) && PendingIntent(db, id, intent)
    requires next == Step(db, Complete(id, CompletionInput(intent, result)), env)
    ensures HasStatus(next, id, Succeeded)
       <==> SaysSucceeded(result) && NewEvent(db, intent, result)
            && Allowed(db, intent.account, intent.clearing, Outbound)
    ensures HasStatus(next, id, Succeeded) ==>
      && Pays(db, next, intent.account, intent.clearing, intent.amount, env.journal, true)
      && id in db.holds && next.holds == db.holds[id := db.holds[id].(status := Consumed)]
      && next.journals == db.journals[env.journal :=
           Booked(id, Outbound, intent.account, intent.clearing, intent.amount, intent.currency)]
      && Carries(db, next, id, intent, result) && next.transfers[id].failure == result.failure
  {
    var input := CompletionInput(intent, result);
    CompletionInputSays(intent, result);
    IntentCompletes(db, id, intent, result, Succeeded);
    IntentAdmitted(db, id, intent, result, env);
    CompletionEnds(db, id, input, env, Succeeded, next);
  }

  /** A provider that refuses, is unavailable or returns nothing fails the transfer: its money
      is free again. */
  lemma NoTransferFails(db: DB, id: TransferId, intent: RecordInput, reply: ProviderReply, env: Env, next: DB)
    requires Inv(db) && FreshIds(db, env) && PendingIntent(db, id, intent)
    requires reply == NoResult || reply == Unavailable || reply == Refused
    requires var result := Initiated(reply, intent.provider, intent.reference);
             next == Step(db, Complete(id, CompletionInput(intent, result)), env)
    ensures FailedAndFreed(db, next, id, Word(FailedAtProvider))
  {
    AnswerFailsIff(db, id, intent, Initiated(reply, intent.provider, intent.reference), env, next);
  }

  // ---- answers to a requery -----------------------------------------------------------------

  // The answer is about this transfer, and its two fields do not contradict each other.
  predicate AboutIt(row: Transfer, reference: Text, result: ProviderResult) {
    && (result.provider == None || result.provider == Some(row.provider))
    && (result.reference == Blank || result.reference == reference)
    && (result.status == NoStatus || result.providerStatus == NoStatus
        || result.providerStatus == result.status || result.providerStatus == ProviderUnknown)
  }

  // It says a known word or that the outcome is unknown.
  predicate SaysSomething(result: ProviderResult) {
    || result.providerStatus == ProviderUnknown
    || (result.providerStatus == NoStatus && result.status == ProviderUnknown)
    || SaysAgain(result, Pending) || SaysAgain(result, Succeeded) || SaysAgain(result, Failed)
  }

  // One field says it and the other says it too or is blank.
  predicate SaysAgain(result: ProviderResult, word: Status) {
    && (result.status == word || result.providerStatus == word)
    && (result.status == word || result.status == NoStatus)
    && (result.providerStatus == word || result.providerStatus == NoStatus)
  }

  /** A requery sends the repository something if and only if the provider answered about this
      transfer without contradicting itself, or its outcome is unknown to us: any other error
      ends it there. */
  lemma SendsIff(id: TransferId, row: Transfer, clearing: AccountId, reference: Text, reply: ProviderReply)
    ensures RequeryRequest(id, row, clearing, reference, reply).Some?
       <==> match reply
            case Answered(result) => AboutIt(row, reference, result) && SaysSomething(result)
            case Refused => false
            case _ => true
  {
  }

  /** What is sent is final only if the provider said so. */
  lemma SentFinalIff(id: TransferId, row: Transfer, clearing: AccountId, reference: Text, reply: ProviderReply,
                     outcome: Status)
    requires FinalWord(outcome) && RequeryRequest(id, row, clearing, reference, reply).Some?
    ensures var input := RequeryRequest(id, row, clearing, reference, reply).value;
            && (input.status == outcome <==> reply.Answered? && SaysAgain(reply.result, outcome))
            && (input.status == outcome ==> input.providerStatus == outcome)
            && (!reply.Answered? ==> input.status == Pending && input.providerStatus == ProviderUnknown)
  {
  }

  // The reason recorded: the provider's, or one for an unknown or failed outcome without.
  function ReasonSent(reply: ProviderReply, input: RecordInput): Text {
    if reply.Answered? && reply.result.failure != Blank then reply.result.failure
    else if input.providerStatus == ProviderUnknown then Word(UnknownAtProvider)
    else if input.status == Failed then Word(FailedAtProvider)
    else Blank
  }

  /** Apart from the statuses, what is sent repeats the transfer's own fields and carries no event. */
  lemma SentRepeats(id: TransferId, row: Transfer, clearing: AccountId, reference: Text, reply: ProviderReply,
                    input: RecordInput)
    requires RequeryRequest(id, row, clearing, reference, reply) == Some(input)
    ensures input == RecordInput(row.account, clearing, row.direction, input.status, row.amount, row.currency, row.key,
                                 row.provider, reference, None, input.providerStatus, row.fingerprint, None,
                                 ReasonSent(reply, input), false, false)
  {
  }

  // The tables after a requery: what was sent is executed, and nothing is if nothing was.
  function AfterRequery(db: DB, id: TransferId, clearing: AccountId, reference: Text, reply: ProviderReply,
                        env: Env): DB
    requires id in db.transfers
  {
    match RequeryRequest(id, db.transfers[id], clearing, reference, reply)
    case None => db
    case Some(input) => Step(db, Op.Requery(id, input), env)
  }

  /** A requery the provider refuses changes nothing. */
  lemma RefusedRequeryStill(db: DB, id: TransferId, clearing: AccountId, reference: Text, env: Env)
    requires id in db.transfers
    ensures AfterRequery(db, id, clearing, reference, Refused, env) == db
  {
    SendsIff(id, db.transfers[id], clearing, reference, Refused);
  }

  // A pending transfer with an external provider, still open to a requery by this reference.
  predicate Open(db: DB, id: TransferId, clearing: AccountId, reference: Text) {
    && HasStatus(db, id, Pending) && reference != Blank
    && clearing in db.accounts && clearing != db.transfers[id].account
    && var row := db.transfers[id];
       && row.provider != LedgerInternal && row.ledgerStatus == LedgerPending
       && (row.providerStatus == Pending || row.providerStatus == ProviderUnknown)
       && (row.reference == Blank || row.reference == reference)
  }

  lemma SentEnds(db: DB, id: TransferId, clearing: AccountId, reference: Text, reply: ProviderReply, outcome: Status)
    requires Inv(db) && FinalWord(outcome) && Open(db, id, clearing, reference)
    requires RequeryRequest(id, db.transfers[id], clearing, reference, reply).Some?
    ensures var row, input := db.transfers[id], RequeryRequest(id, db.transfers[id], clearing, reference, reply).value;
            RequeryEnds(db, id, input, outcome)
            <==> reply.Answered? && SaysAgain(reply.result, outcome)
                 && (outcome == Succeeded ==> Allowed(db, row.account, clearing, row.direction))
  {
    assert RowOk(db, id);
    SentFinalIff(id, db.transfers[id], clearing, reference, reply, outcome);
  }

  /** A requery of an open transfer makes it succeed or fail if and only if the provider
      answered about it and said so without contradicting itself and, to succeed, the
      controls allow it. */
  lemma RequeryAnswerEnds(db: DB, id: TransferId, clearing: AccountId, reference: Text, reply: ProviderReply, env: Env,
                          outcome: Status, next: DB)
    requires Inv(db) && FreshIds(db, env) && FinalWord(outcome) && Open(db, id, clearing, reference)
    requires next == AfterRequery(db, id, clearing, reference, reply, env)
    ensures var row := db.transfers[id];
            HasStatus(next, id, outcome)
            <==> reply.Answered? && AboutIt(row, reference, reply.result) && SaysAgain(reply.result, outcome)
                 && (outcome == Succeeded ==> Allowed(db, row.account, clearing, row.direction))
  {
    var row := db.transfers[id];
    assert RowOk(db, id);
    SendsIff(id, row, clearing, reference, reply);
    var request := RequeryRequest(id, row, clearing, reference, reply);
    if request.Some? {
      SentEnds(db, id, clearing, reference, reply, outcome);
      RequeryEndsIff(db, id, request.value, env, outcome, next);
    }
  }

  // What a requery that says failed sends.
  lemma SentFailure(id: TransferId, row: Transfer, clearing: AccountId, reference: Text, result: ProviderResult,
                    input: RecordInput)
    requires RequeryRequest(id, row, clearing, reference, Answered(result)) == Some(input) && SaysAgain(result, Failed)
    ensures input.account == row.account && input.amount == row.amount && input.direction == row.direction
    ensures input.failure == if result.failure == Blank then Word(FailedAtProvider) else result.failure
  {
  }

  lemma EndedFreed(db: DB, next: DB, id: TransferId, input: RecordInput, reference: Text, env: Env)
    requires Ended(db, next, id, input, Failed, reference, env) && input.direction == Outbound
    requires input.account == db.transfers[id].account && input.amount == db.transfers[id].amount
    ensures FailedAndFreed(db, next, id, input.failure)
  {
  }

  /** A failed answer to a requery of an outbound transfer frees its money, as it does at once. */
  lemma RequeryFailureFrees(db: DB, id: TransferId, clearing: AccountId, reference: Text, result: ProviderResult,
                            env: Env, next: DB)
    requires Inv(db) && FreshIds(db, env) && Open(db, id, clearing, reference)
    requires db.transfers[id].direction == Outbound
    requires AboutIt(db.transfers[id], reference, result) && SaysAgain(result, Failed)
    requires next == AfterRequery(db, id, clearing, reference, Answered(result), env)
    ensures FailedAndFreed(db, next, id, if result.failure == Blank then Word(FailedAtProvider) else result.failure)
  {
    var row := db.transfers[id];
    SendsIff(id, row, clearing, reference, Answered(result));
    var input := RequeryRequest(id, row, clearing, reference, Answered(result)).value;
    SentFailure(id, row, clearing, reference, result, input);
    SentEnds(db, id, clearing, reference, Answered(result), Failed);
    RequeryAdmitted(db, id, clearing, reference, Answered(result), env);
    RequeryEndsIff(db, id, input, env, Failed, next);
    EndedFreed(db, next, id, WithReference(row, input), EndReference(row, input), env);
  }

  lemma RequeryAdmitted(db: DB, id: TransferId, clearing: AccountId, reference: Text, reply: ProviderReply, env: Env)
    requires Inv(db) && FreshIds(db, env) && HasStatus(db, id, Pending)
    requires RequeryRequest(id, db.transfers[id], clearing, reference, reply).Some?
    ensures Admissible(db, Op.Requery(id, RequeryRequest(id, db.transfers[id], clearing, reference, reply).value), env)
  {
    assert RowOk(db, id);
  }
}
