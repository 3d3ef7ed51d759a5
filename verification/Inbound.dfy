/** An inbound provider event: looked up, recorded, and put to review when recording it conflicts. */
module Inbound {
  import opened Types
  import opened Policy
  import opened Ledger
  import opened Transfers
  import opened Steps
  import opened Invariant
  import opened Decisions
  import opened Runs
  import opened ExactlyOnce

  /** A normalised webhook event. `destination` is the account the event names, if the lookup
      finds one; the fingerprint covers it. The two keys are texts built from provider, event
      and, for a review, the fingerprint. */
  datatype Delivery = Delivery(
    destination: Option<AccountId>,
    status: Status,
    amount: int,
    provider: Provider,
    reference: Text,
    event: EventId,
    fingerprint: Fingerprint,
    recordKey: Key,
    reviewKey: Key,
    failure: Text)

  // What normalisation lets through.
  predicate Normalised(d: Delivery) {
    d.reference != Blank && d.amount > 0 && ValidStatus(d.status) && d.fingerprint != NoFingerprint
  }

  function EventKeyOf(d: Delivery): EventKey {
    EventKey(d.provider, d.event)
  }

  function InboundRecord(d: Delivery, account: AccountId, settlement: AccountId): RecordInput {
    RecordInput(account, settlement, Inbound, d.status, d.amount, NGN, d.recordKey, d.provider, d.reference,
                Some(d.event), d.status, d.fingerprint, None, d.failure, false, false)
  }

  const UnknownDestination: nat := 4
  const BlockedDestination: nat := 5
  const PayloadConflict: nat := 6

  function InboundReview(d: Delivery, account: AccountId, reason: nat, reserve: bool): ReviewInput {
    ReviewInput(account, Inbound, if d.status == Pending then Pending else Failed, d.status, d.amount, NGN, d.reviewKey,
                d.provider, d.reference, d.event, d.fingerprint, Word(reason), reserve)
  }

  predicate NeedsReview(db: DB, account: AccountId) {
    account in db.accounts && Barred(db.accounts[account])
  }

  // The request a delivery opens with.
  function FirstRequest(db: DB, d: Delivery, settlement: AccountId): Op {
    match d.destination
    case None => Review(InboundReview(d, settlement, UnknownDestination, true))
    case Some(account) =>
      if NeedsReview(db, account) then Review(InboundReview(d, account, BlockedDestination, true))
      else Record(InboundRecord(d, account, settlement))
  }

  /** What follows a refused recording: a review without reserving the event after a conflict,
      a review that reserves it when the destination got blocked meanwhile, or nothing. */
  function SecondRequest(db: DB, d: Delivery, error: Error): Option<Op> {
    match d.destination
    case None => None
    case Some(account) =>
      if error == Conflict then Some(Review(InboundReview(d, account, PayloadConflict, false)))
      else if error == InvalidRequest && NeedsReview(db, account) then
        Some(Review(InboundReview(d, account, BlockedDestination, true)))
      else None
  }

  // The request that is still due after the first one was answered.
  function FollowUp(db: DB, d: Delivery, settlement: AccountId, env: Env, later: DB): Option<Op> {
    match Exec(db, FirstRequest(db, d, settlement), env).reply
    case Done(_, _, _) => None
    case Fail(error) => if FirstRequest(db, d, settlement).Record? then SecondRequest(later, d, error) else None
  }

  lemma RequestsWellFormed(db: DB, d: Delivery, settlement: AccountId, error: Error)
    requires Normalised(d)
    ensures WellFormed(FirstRequest(db, d, settlement)) && HoldsOnCredit(db, FirstRequest(db, d, settlement))
    ensures SecondRequest(db, d, error).Some? ==>
      SecondRequest(db, d, error).value.Review? && WellFormed(SecondRequest(db, d, error).value)
  {
  }

  /** A delivery is a run of admissible requests, whatever is delivered and whatever runs
      between its two transactions, so every run theorem applies to it. */
  lemma DeliveryKeepsInv(db: DB, d: Delivery, settlement: AccountId, env: Env, first: DB, between: seq<Call>,
                         later: DB, reviewEnv: Env)
    requires Inv(db) && Normalised(d) && FreshIds(db, env) && first == Step(db, FirstRequest(db, d, settlement), env)
    requires AdmissibleRun(first, between) && later == Run(first, between) && FreshIds(later, reviewEnv)
    ensures Admissible(db, FirstRequest(db, d, settlement), env) && Inv(first) && Inv(later)
    ensures var next := FollowUp(db, d, settlement, env, later);
            next.Some? ==> Admissible(later, next.value, reviewEnv) && Inv(Step(later, next.value, reviewEnv))
  {
    RequestsWellFormed(db, d, settlement, Conflict);
    StepKeepsInv(db, FirstRequest(db, d, settlement), env);
    RunKeepsInv(first, between);
    var next := FollowUp(db, d, settlement, env, later);
    if next.Some? {
      RequestsWellFormed(later, d, settlement, Exec(db, FirstRequest(db, d, settlement), env).reply.error);
      StepKeepsInv(later, next.value, reviewEnv);
    }
  }

  // No money moved.
  predicate MoneySame(db: DB, next: DB) {
    next.journals == db.journals && next.balances == db.balances && next.holds == db.holds && next.liens == db.liens
  }

  // At most one row was added, unposted and up for manual review; no other row changed.
  predicate OnlyReviewAdded(db: DB, next: DB) {
    next.transfers == db.transfers ||
    exists id :: id !in db.transfers && id in next.transfers && next.transfers == db.transfers[id := next.transfers[id]]
                 && UnpostedReview(next.transfers[id])
  }

  predicate UnpostedReview(row: Transfer) {
    row.ledgerStatus == NoPosting && row.reconciliation == ManualReview && row.journal.None?
    && (row.status == Failed || row.status == Pending)
  }

  lemma ReviewAddsReview(db: DB, input: ReviewInput, env: Env)
    requires FreshIds(db, env) && (input.status == Failed || input.status == Pending)
    ensures MoneySame(db, Step(db, Review(input), env)) && OnlyReviewAdded(db, Step(db, Review(input), env))
  {
    var change := Committed(db, Review(input), env);
    if change.Insert? {
      assert UnpostedReview(change.row);
      assert Step(db, Review(input), env).transfers == db.transfers[change.id := change.row];
    }
  }

  // An event on record whose payload is not this one.
  predicate Conflicting(db: DB, d: Delivery) {
    && EventKeyOf(d) in db.events
    && db.events[EventKeyOf(d)].fingerprint != NoFingerprint
    && db.events[EventKeyOf(d)].fingerprint != d.fingerprint
  }

  // Recording such an event writes nothing.
  lemma ConflictingRecord(db: DB, d: Delivery, account: AccountId, settlement: AccountId, env: Env)
    requires Inv(db) && Normalised(d) && Conflicting(db, d)
    ensures Step(db, Record(InboundRecord(d, account, settlement)), env) == db
    ensures Exec(db, Record(InboundRecord(d, account, settlement)), env).reply.Done? ==> d.recordKey in db.byKey
  {
    var input := InboundRecord(d, account, settlement);
    if input.key !in db.byKey {
      EventReplay(db, input, env);
    } else {
      assert KeyOk(db, input.key);
    }
  }

  /** Redelivering a known event with another payload, whatever the destination and however
      the rest of the bank goes on between its two transactions, leaves at most one new row,
      an unposted review, and moves no money. */
  lemma ConflictOnlyReviews(db: DB, d: Delivery, settlement: AccountId, env: Env, first: DB,
                            between: seq<Call>, later: DB, reviewEnv: Env)
    requires Inv(db) && Normalised(d) && Conflicting(db, d) && FreshIds(db, env)
    requires first == Step(db, FirstRequest(db, d, settlement), env)
    requires AdmissibleRun(first, between) && later == Run(first, between) && FreshIds(later, reviewEnv)
    ensures MoneySame(db, first) && OnlyReviewAdded(db, first)
    ensures var next := FollowUp(db, d, settlement, env, later);
            next.Some? ==> first == db
                           && MoneySame(later, Step(later, next.value, reviewEnv))
                           && OnlyReviewAdded(later, Step(later, next.value, reviewEnv))
  {
    ConflictingFirst(db, d, settlement, env, first);
    var next := FollowUp(db, d, settlement, env, later);
    if next.Some? { ReviewAddsReview(later, next.value.review, reviewEnv); }
  }

  lemma ConflictingFirst(db: DB, d: Delivery, settlement: AccountId, env: Env, first: DB)
    requires Inv(db) && Normalised(d) && Conflicting(db, d) && FreshIds(db, env)
    requires first == Step(db, FirstRequest(db, d, settlement), env)
    ensures MoneySame(db, first) && OnlyReviewAdded(db, first)
    ensures FirstRequest(db, d, settlement).Record? ==> first == db
  {
    match FirstRequest(db, d, settlement)
    case Review(input) => ReviewAddsReview(db, input, env);
    case Record(input) => ConflictingRecord(db, d, input.account, settlement, env);
  }

  // The delivery was recorded as this transfer: its key and its event lead there.
  predicate RecordedAs(db: DB, d: Delivery, id: TransferId) {
    && id in db.transfers && db.transfers[id].fingerprint == d.fingerprint
    && Find(db.byKey, d.recordKey) == Some(id)
    && EventKeyOf(d) in db.events
    && db.events[EventKeyOf(d)].transfer == Some(id) && db.events[EventKeyOf(d)].fingerprint == d.fingerprint
  }

  lemma RecordingLinks(db: DB, input: RecordInput, env: Env)
    requires KeysOk(db) && input.event.Some?
    requires Exec(db, Record(input), env).reply.Done? && Exec(db, Record(input), env).reply.created
    ensures var change := Committed(db, Record(input), env);
            && change.Insert? && change.id == Exec(db, Record(input), env).reply.id
            && change.row.key == input.key && change.row.fingerprint == FingerprintOf(input)
            && change.event == Reserve(input, change.id)
  {
    RecordCreates(db, input, env);
    CreatedIsFresh(db, input, env);
  }

  lemma StaysRecorded(db: DB, later: DB, d: Delivery, id: TransferId)
    requires Evolves(db, later) && RecordedAs(db, d, id)
    ensures RecordedAs(later, d, id)
  {
    assert RowEvolves(db, later, id);
  }

  // Whichever request a redelivery opens with, it answers with the transfer on record.
  lemma RecordedAnswers(db: DB, d: Delivery, id: TransferId, settlement: AccountId, env: Env)
    requires Normalised(d) && RecordedAs(db, d, id)
    ensures Exec(db, FirstRequest(db, d, settlement), env).reply == Done(NoChange, id, false)
    ensures Step(db, FirstRequest(db, d, settlement), env) == db
  {
  }

  /** Once a delivery created a transfer, delivering it again at any later time returns that
      transfer and writes nothing, though its account be frozen by then or another
      settlement account be the default. */
  lemma RedeliveryReturnsTransfer(db: DB, d: Delivery, settlement: AccountId, env: Env, calls: seq<Call>,
                                  settlementNow: AccountId, envNow: Env)
    requires Inv(db) && Normalised(d) && d.destination.Some?
    requires FirstRequest(db, d, settlement).Record? && Admissible(db, FirstRequest(db, d, settlement), env)
    requires Exec(db, FirstRequest(db, d, settlement), env).reply.Done?
    requires Exec(db, FirstRequest(db, d, settlement), env).reply.created
    requires AdmissibleRun(Step(db, FirstRequest(db, d, settlement), env), calls)
    ensures var later := Run(Step(db, FirstRequest(db, d, settlement), env), calls);
            && Exec(later, FirstRequest(later, d, settlementNow), envNow).reply
               == Done(NoChange, Exec(db, FirstRequest(db, d, settlement), env).reply.id, false)
            && Step(later, FirstRequest(later, d, settlementNow), envNow) == later
  {
    var input := InboundRecord(d, d.destination.value, settlement);
    var change := Committed(db, Record(input), env);
    var next := Apply(db, change);
    RecordingLinks(db, input, env);
    assert RecordedAs(next, d, change.id);
    StepKeepsInv(db, Record(input), env);
    RunEvolves(next, calls);
    StaysRecorded(next, Run(next, calls), d, change.id);
    RecordedAnswers(Run(next, calls), d, change.id, settlementNow, envNow);
  }
}
