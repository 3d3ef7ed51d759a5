/** How a provider's answer, or the lack of one, becomes a completion. */
module Provider {
  import opened Types
  import opened Policy
  import opened Ledger
  import opened Transfers
  import opened Steps
  import opened Invariant
  import opened Effects
  import opened Decisions

  datatype ProviderResult = ProviderResult(
    provider: Option<Types.Provider>,
    reference: Text,
    event: Option<EventId>,
    status: Status,
    providerStatus: Status,
    failure: Text)

  // The provider is an oracle: any result, none at all, or an error.
  datatype ProviderReply =
    | Answered(result: ProviderResult)
    | NoResult
    | OutcomeUnknown   // status unknown, cancelled, or deadline exceeded
    | Unavailable
    | Refused

  function FirstNonBlank(a: Text, b: Text): Text {
    if a != Blank then a else b
  }

  function UnknownResult(provider: Types.Provider, reference: Text): ProviderResult {
    ProviderResult(Some(provider), reference, None, Pending, ProviderUnknown, Word(UnknownAtProvider))
  }

  function FailedResult(provider: Types.Provider, reference: Text): ProviderResult {
    ProviderResult(Some(provider), reference, None, Failed, Failed, Word(FailedAtProvider))
  }

  // What initiating a transfer yields.
  function Initiated(reply: ProviderReply, provider: Types.Provider, reference: Text): ProviderResult {
    match reply
    case Answered(result) => result
    case OutcomeUnknown => UnknownResult(provider, reference)
    case _ => FailedResult(provider, reference)
  }

  // What a requery yields; any other error is passed on and nothing is completed.
  function Requeried(reply: ProviderReply, provider: Types.Provider, reference: Text): Option<ProviderResult> {
    match reply
    case Answered(result) => Some(result)
    case Refused => None
    case _ => Some(UnknownResult(provider, reference))
  }

  function CompletionInput(intent: RecordInput, result: ProviderResult): RecordInput {
    var named := if result.providerStatus == NoStatus then result.status else result.providerStatus;
    var known := if named == ProviderUnknown then Pending else result.status;
    var status := if known == NoStatus then Failed else known;
    intent.(
      status := status,
      providerStatus := if named == NoStatus then status else named,
      reference := FirstNonBlank(result.reference, intent.reference),
      event := result.event,
      failure := result.failure)
  }

  // The two status fields name different outcomes.
  predicate Disagree(result: ProviderResult) {
    && result.status != NoStatus && result.providerStatus != NoStatus
    && result.providerStatus != result.status && result.providerStatus != ProviderUnknown
  }

  datatype Requery = Settled(input: RecordInput) | Rejected(error: Error)

  function RequeryInput(id: TransferId, row: Transfer, clearing: AccountId, reference: Text,
                        result: ProviderResult): Requery {
    if result.provider.Some? && result.provider.value != row.provider then Rejected(Conflict)
    else if result.reference != Blank && result.reference != reference then Rejected(Conflict)
    else if Disagree(result) then Rejected(Conflict)
    else
      var named := if result.providerStatus == NoStatus then result.status else result.providerStatus;
      var known := if named == ProviderUnknown then Pending else result.status;
      var status := if known == NoStatus then named else known;
      var providerStatus := if named == NoStatus then status else named;
      if !ValidStatus(status) || !ValidProviderStatus(providerStatus) then Rejected(InvalidRequest)
      else
        Settled(RecordInput(
          row.account, clearing, row.direction, status, row.amount, row.currency, row.key, row.provider,
          reference, None, providerStatus, row.fingerprint, None,
          if providerStatus == ProviderUnknown && result.failure == Blank then Word(UnknownAtProvider)
          else if status == Failed && result.failure == Blank then Word(FailedAtProvider)
          else result.failure,
          false, false))
  }

  // ---- completion -----------------------------------------------------------------

  predicate IntentRow(row: Transfer, intent: RecordInput) {
    && row.status == Pending && row.direction == Outbound && row.reversalOf.None?
    && row.account == intent.account && row.amount == intent.amount && row.currency == intent.currency
    && row.provider == intent.provider && row.fingerprint == FingerprintOf(intent)
  }

  // The row this intent created, still pending.
  predicate PendingIntent(db: DB, id: TransferId, intent: RecordInput) {
    && id in db.transfers
    && IntentRow(db.transfers[id], intent)
    && intent.direction == Outbound && intent.reversalOf.None? && intent.fingerprint != NoFingerprint
    && intent.account != intent.clearing && intent.clearing in db.accounts
  }

  predicate NewEvent(db: DB, intent: RecordInput, result: ProviderResult) {
    result.event.Some? ==> EventKey(intent.provider, result.event.value) !in db.events
  }

  // The answer says provider_unknown in one status field or the other.
  predicate NamesUnknown(result: ProviderResult) {
    result.status == ProviderUnknown || result.providerStatus == ProviderUnknown
  }

  // The code takes it for unknown: a known provider status beside it would count instead.
  predicate Unknown(result: ProviderResult) {
    result.providerStatus == ProviderUnknown || (result.providerStatus == NoStatus && result.status == ProviderUnknown)
  }

  // Nothing stands between a completion of such a row and its decision.
  lemma CompletionDecides(db: DB, id: TransferId, intent: RecordInput, result: ProviderResult, env: Env)
    requires Inv(db) && PendingIntent(db, id, intent)
    ensures intent.account in db.accounts && intent.account in db.balances && ActiveHold(db, id)
    ensures var input := CompletionInput(intent, result);
            CompleteOutbound(db, id, input, env).reply == CompleteLocked(db, id, input, env)
  {
    assert RowOk(db, id) && PendingHeld(db, id) && HoldOk(db, id);
  }

  // Pending as before, its hold active, nothing posted and nothing moved.
  predicate MoneyWaits(db: DB, next: DB, id: TransferId) {
    && next.journals == db.journals && next.balances == db.balances && next.holds == db.holds
    && ActiveHold(next, id) && id in next.transfers && next.transfers[id].status == Pending
    && next.transfers[id].journal.None?
  }

  // A completion that leaves the transfer as it is but for its labels.
  predicate OnlyRelabels(change: Change, id: TransferId) {
    && change.Advance? && change.id == id && change.entry.None? && change.hold == KeepHold
    && change.row.status == Pending && change.row.journal.None?
    && change.row.providerStatus == ProviderUnknown && change.row.reconciliation == ManualReview
  }

  lemma UnknownRelabels(db: DB, id: TransferId, intent: RecordInput, result: ProviderResult, env: Env)
    requires Inv(db) && PendingIntent(db, id, intent) && Unknown(result)
    ensures var reply := CompleteOutbound(db, id, CompletionInput(intent, result), env).reply;
            if NewEvent(db, intent, result) then
              reply.Done? && OnlyRelabels(reply.change, id) && reply.change.row.failure == result.failure
            else reply.Done? ==> reply.change == NoChange
  {
    CompletionDecides(db, id, intent, result, env);
  }

  lemma RelabellingWaits(db: DB, change: Change, id: TransferId)
    requires PendingOutboundHeld(db, id) && (OnlyRelabels(change, id) || change == NoChange)
    ensures MoneyWaits(db, Apply(db, change), id)
  {
  }

  predicate PendingOutboundHeld(db: DB, id: TransferId) {
    id in db.transfers && db.transfers[id].status == Pending && db.transfers[id].journal.None? && ActiveHold(db, id)
  }

  // Unknown in the status, beside a provider status that is another word.
  predicate Garbled(result: ProviderResult) {
    NamesUnknown(result) && !Unknown(result)
  }

  /** A garbled answer is refused, so it leaves no trace: the transfer keeps its labels and is
      not put up for review. */
  lemma GarbledRefused(db: DB, id: TransferId, intent: RecordInput, result: ProviderResult, env: Env)
    requires Inv(db) && PendingIntent(db, id, intent) && Garbled(result)
    ensures Step(db, Complete(id, CompletionInput(intent, result)), env) == db
    ensures NewEvent(db, intent, result) ==>
      Exec(db, Complete(id, CompletionInput(intent, result)), env).reply == Fail(InvalidRequest)
  {
    CompletionDecides(db, id, intent, result, env);
  }

  /** An outcome unknown in either status field completes by posting nothing: the hold stays
      active, no balance moves and the transfer stays pending. */
  lemma UnknownWaits(db: DB, id: TransferId, intent: RecordInput, result: ProviderResult, env: Env, next: DB)
    requires Inv(db) && PendingIntent(db, id, intent) && NamesUnknown(result)
    requires next == Step(db, Complete(id, CompletionInput(intent, result)), env)
    ensures MoneyWaits(db, next, id)
    ensures Unknown(result) && NewEvent(db, intent, result) ==>
      && next.transfers[id].providerStatus == ProviderUnknown && next.transfers[id].reconciliation == ManualReview
      && next.transfers[id].failure == result.failure
    ensures !(Unknown(result) && NewEvent(db, intent, result)) ==> next == db
  {
    assert RowOk(db, id) && PendingHeld(db, id) && HoldOk(db, id);
    if Unknown(result) {
      UnknownRelabels(db, id, intent, result, env);
      RelabellingWaits(db, Committed(db, Complete(id, CompletionInput(intent, result)), env), id);
    } else {
      GarbledRefused(db, id, intent, result, env);
      RelabellingWaits(db, NoChange, id);
    }
  }

  // A committed completion that puts the transfer up for manual review.
  predicate Reviews(reply: Reply) {
    reply.Done? && reply.change.Advance? && reply.change.row.reconciliation == ManualReview
  }

  /** Whatever the provider answers, the completion puts the transfer up for manual review if
      and only if the code takes the outcome for unknown and the event is new. */
  lemma ReviewedIff(db: DB, id: TransferId, intent: RecordInput, result: ProviderResult, env: Env)
    requires Inv(db) && PendingIntent(db, id, intent)
    ensures Reviews(Exec(db, Complete(id, CompletionInput(intent, result)), env).reply)
       <==> Unknown(result) && NewEvent(db, intent, result)
  {
    CompletionDecides(db, id, intent, result, env);
  }

  // The provider did not say what became of the transfer.
  predicate DoesNotKnow(reply: ProviderReply) {
    reply == OutcomeUnknown || (reply.Answered? && NamesUnknown(reply.result))
  }

  /** So a provider that times out, is cancelled or says it does not know never posts. */
  lemma NoAnswerWaits(db: DB, id: TransferId, intent: RecordInput, reply: ProviderReply, env: Env, next: DB)
    requires Inv(db) && PendingIntent(db, id, intent) && DoesNotKnow(reply)
    requires next
      == Step(db, Complete(id, CompletionInput(intent, Initiated(reply, intent.provider, intent.reference))), env)
    ensures MoneyWaits(db, next, id)
    ensures reply == OutcomeUnknown ==>
      next.transfers[id].reconciliation == ManualReview && next.transfers[id].failure == Word(UnknownAtProvider)
  {
    UnknownWaits(db, id, intent, Initiated(reply, intent.provider, intent.reference), env, next);
  }

  predicate Enters(reply: Reply) {
    reply.Done? && reply.change.Advance? && reply.change.entry.Some?
  }

  // When a completion under lock writes an entry.
  lemma LockedPostsIff(db: DB, id: TransferId, input: RecordInput, env: Env)
    requires id in db.transfers && ActiveHold(db, id) && !EventTaken(db, input)
    requires db.transfers[id].account in db.accounts && db.transfers[id].account in db.balances
    requires input.clearing in db.accounts
    ensures Enters(CompleteLocked(db, id, input, env))
       <==> CompletionStatuses(input).Some? && CompletionStatuses(input).value.0 == Succeeded
            && ControlsAllow(input, db.accounts[db.transfers[id].account], db.accounts[input.clearing])
    ensures var reply := CompleteLocked(db, id, input, env);
            reply.Done? ==>
              reply.change.Advance?
              && (reply.change.entry.Some? ==> reply.change.entry.value.id == env.journal)
  {
  }

  lemma CompletionSucceedsIff(intent: RecordInput, result: ProviderResult)
    ensures CompletionStatuses(CompletionInput(intent, result)).Some?
            && CompletionStatuses(CompletionInput(intent, result)).value.0 == Succeeded
       <==> result.status == Succeeded && (result.providerStatus == NoStatus || ValidStatus(result.providerStatus))
  {
  }

  lemma AdvancePostsIff(db: DB, change: Change, journal: JournalId)
    requires change.Advance? && journal !in db.journals
    requires change.entry.Some? ==> change.entry.value.id == journal
    ensures Apply(db, change).journals != db.journals <==> change.entry.Some?
  {
    if change.entry.Some? { assert journal in Apply(db, change).journals; }
  }

  /** A completion posts the journal exactly when the provider's status says succeeded, its
      provider status is a known word other than unknown, its event is not on record yet, and
      the account controls allow it. */
  lemma CompletionPostsIff(db: DB, id: TransferId, intent: RecordInput, result: ProviderResult, env: Env)
    requires Inv(db) && FreshIds(db, env) && PendingIntent(db, id, intent)
    ensures intent.account in db.accounts
    ensures Step(db, Complete(id, CompletionInput(intent, result)), env).journals != db.journals
       <==> result.status == Succeeded && (result.providerStatus == NoStatus || ValidStatus(result.providerStatus))
            && NewEvent(db, intent, result)
            && Allowed(db, intent.account, intent.clearing, Outbound)
  {
    var input := CompletionInput(intent, result);
    assert RowOk(db, id);
    ControlsAllowIff(db, intent);
    CompletionDecides(db, id, intent, result, env);
    if NewEvent(db, intent, result) {
      LockedPostsIff(db, id, input, env);
      CompletionSucceedsIff(intent, result);
      var change := Committed(db, Complete(id, input), env);
      if change.Advance? { AdvancePostsIff(db, change, env.journal); }
    }
  }

  // ---- requery --------------------------------------------------------------------

  /** A requery that settles a transfer had status fields that do not disagree; an unknown
      one leaves it pending. */
  lemma RequeryNeedsAgreement(id: TransferId, row: Transfer, clearing: AccountId, reference: Text,
                              result: ProviderResult)
    requires RequeryInput(id, row, clearing, reference, result).Settled?
    ensures var input := RequeryInput(id, row, clearing, reference, result).input;
            && CompletionStatuses(input) == Some((input.status, input.providerStatus))
            && (input.status != Pending ==>
                && input.providerStatus == input.status
                && (result.status == input.status || result.status == NoStatus)
                && (result.providerStatus == input.status || result.providerStatus == NoStatus))
            && (NamesUnknown(result) ==> input.status == Pending && input.providerStatus == ProviderUnknown)
  {
  }

  // A change that only refreshes a pending row.
  predicate Waits(reply: Reply, id: TransferId) {
    reply.Done? ==>
      && reply.change.Advance? && reply.change.id == id
      && reply.change.entry.None? && reply.change.hold == KeepHold
      && reply.change.row.status == Pending && reply.change.row.reconciliation == ManualReview
  }

  lemma UnknownCompleteWaits(db: DB, id: TransferId, input: RecordInput, env: Env)
    requires id in db.transfers && db.transfers[id].status == Pending
    requires ProviderStatusOf(input) == ProviderUnknown && input.event.None?
    ensures Waits(CompleteOutbound(db, id, input, env).reply, id)
  {
  }

  lemma UnknownPendingWaits(db: DB, id: TransferId, input: RecordInput, env: Env)
    requires id in db.transfers && db.transfers[id].status == Pending
    requires ProviderStatusOf(input) == ProviderUnknown && input.event.None?
    ensures Waits(RequeryPending(db, id, input, env).reply, id)
  {
    UnknownCompleteWaits(db, id, input, env);
  }

  lemma UnknownRequeryDecides(db: DB, id: TransferId, input: RecordInput, env: Env)
    requires id in db.transfers && db.transfers[id].status == Pending
    requires ProviderStatusOf(input) == ProviderUnknown && input.event.None?
    ensures Waits(RequeryTransfer(db, id, input, env).reply, id)
  {
    var known := WithReference(db.transfers[id], input);
    UnknownPendingWaits(db, id, known, env);
  }

  /** Requerying with an unknown outcome moves no money and leaves the hold as it was. */
  lemma UnknownRequeryWaits(db: DB, id: TransferId, clearing: AccountId, reference: Text, result: ProviderResult,
                            env: Env)
    requires id in db.transfers && db.transfers[id].status == Pending
    requires NamesUnknown(result) && RequeryInput(id, db.transfers[id], clearing, reference, result).Settled?
    ensures var op := Op.Requery(id, RequeryInput(id, db.transfers[id], clearing, reference, result).input);
            var next := Step(db, op, env);
            && next.journals == db.journals && next.balances == db.balances && next.holds == db.holds
            && id in next.transfers && next.transfers[id].status == Pending
            && (Exec(db, op, env).reply.Done? ==> next.transfers[id].reconciliation == ManualReview)
  {
    var input := RequeryInput(id, db.transfers[id], clearing, reference, result).input;
    RequeryNeedsAgreement(id, db.transfers[id], clearing, reference, result);
    UnknownRequeryDecides(db, id, input, env);
  }

  // The request a requery sends to the repository, if the provider's reply yields one.
  function RequeryRequest(id: TransferId, row: Transfer, clearing: AccountId, reference: Text, reply: ProviderReply)
    : Option<RecordInput>
  {
    match Requeried(reply, row.provider, reference)
    case None => None
    case Some(result) =>
      match RequeryInput(id, row, clearing, reference, result)
      case Settled(input) => Some(input)
      case Rejected(_) => None
  }

  /** A requery the provider does not answer, because the outcome is unknown, it is unavailable
      or it has no result, always reaches the repository, and moves no money there. */
  lemma UnansweredRequeryWaits(db: DB, id: TransferId, clearing: AccountId, reference: Text, reply: ProviderReply,
                               env: Env)
    requires id in db.transfers && db.transfers[id].status == Pending
    requires reply == OutcomeUnknown || reply == Unavailable || reply == NoResult
    ensures var request := RequeryRequest(id, db.transfers[id], clearing, reference, reply);
            && request.Some?
            && var next := Step(db, Op.Requery(id, request.value), env);
               && next.journals == db.journals && next.balances == db.balances && next.holds == db.holds
               && id in next.transfers && next.transfers[id].status == Pending
  {
    UnknownRequeryWaits(db, id, clearing, reference, Requeried(reply, db.transfers[id].provider, reference).value, env);
  }

  /** Whatever the provider replies to a requery of a pending transfer, the request sent is one
      the invariant admits, so the books stay in order. */
  lemma RequeryKeepsInv(db: DB, id: TransferId, clearing: AccountId, reference: Text, reply: ProviderReply, env: Env)
    requires Inv(db) && FreshIds(db, env) && id in db.transfers && db.transfers[id].status == Pending
    ensures var request := RequeryRequest(id, db.transfers[id], clearing, reference, reply);
            request.Some? ==> Inv(Step(db, Op.Requery(id, request.value), env))
  {
    assert RowOk(db, id);
    var request := RequeryRequest(id, db.transfers[id], clearing, reference, reply);
    if request.Some? { StepKeepsInv(db, Op.Requery(id, request.value), env); }
  }
}
