/** What the first delivery of a provider event does, by what its destination turns out to be. */
module Deliveries {
  import opened Types
  import opened Steps
  import opened Invariant
  import opened Effects
  import opened Recording
  import opened Reviews
  import opened Inbound

  // The event was not seen, under either of its keys.
  predicate FirstSeen(db: DB, d: Delivery) {
    d.recordKey !in db.byKey && d.reviewKey !in db.byKey && EventKeyOf(d) !in db.events
  }

  predicate FrozenOrClosed(account: Account) {
    account.kind == Customer && (account.status == AccountStatus.Frozen || account.status == Closed)
  }

  // The review row of a delivery: failed unless the event is pending itself.
  predicate UpForReview(db: DB, next: DB, d: Delivery, id: TransferId, a: AccountId, reason: nat) {
    && id in next.transfers && next.byKey == db.byKey[d.reviewKey := id]
    && var row := next.transfers[id];
       && next.transfers == db.transfers[id := row]
       && row.account == a && row.direction == Inbound
       && row.status == (if d.status == Pending then Pending else Failed) && row.providerStatus == d.status
       && row.ledgerStatus == NoPosting && row.reconciliation == ManualReview && row.journal == None
       && row.amount == d.amount && row.currency == NGN && row.provider == d.provider
       && row.reference == d.reference && row.event == Some(d.event) && row.fingerprint == d.fingerprint
       && row.failure == Word(reason)
  }

  // The event is on record for that transfer, with the payload delivered.
  predicate OnRecord(db: DB, next: DB, d: Delivery, id: TransferId) {
    next.events == db.events[EventKeyOf(d) := ProviderEvent(Some(id), d.fingerprint, d.reference)]
  }

  lemma Reviewed(db: DB, d: Delivery, a: AccountId, reason: nat, reserve: bool, env: Env, next: DB)
    requires Inv(db) && Normalised(d) && env.transfer !in db.transfers && a in db.accounts
    requires d.reviewKey !in db.byKey && (reserve ==> EventKeyOf(d) !in db.events)
    requires next == Step(db, Review(InboundReview(d, a, reason, reserve)), env)
    ensures UpForReview(db, next, d, env.transfer, a, reason) && MoneyStill(db, next)
    ensures if reserve then OnRecord(db, next, d, env.transfer) else next.events == db.events
  {
    ReviewIsRecorded(db, InboundReview(d, a, reason, reserve), env, next);
  }

  // The accounts of a delivery to an account in use.
  predicate Reachable(db: DB, d: Delivery, a: AccountId, settlement: AccountId) {
    && d.destination == Some(a) && a in db.accounts && !FrozenOrClosed(db.accounts[a]) && a != settlement
    && settlement in db.accounts && db.accounts[settlement].kind == Internal
  }

  lemma RecordedFirst(db: DB, d: Delivery, a: AccountId, settlement: AccountId)
    requires Reachable(db, d, a, settlement)
    ensures FirstRequest(db, d, settlement) == Record(InboundRecord(d, a, settlement))
  {
  }

  lemma InboundRecordable(db: DB, d: Delivery, a: AccountId, settlement: AccountId, env: Env, input: RecordInput)
    requires Normalised(d) && FirstSeen(db, d) && Reachable(db, d, a, settlement)
    requires input == InboundRecord(d, a, settlement) && NoneFound(db, input, env)
    ensures Ordinary(input) && Recordable(db, input, env)
    ensures RecordedStatus(db, input) == d.status && !Short(db, input)
    ensures Payer(input) == settlement && Payee(input) == a && input.amount == d.amount && input.currency == NGN
    ensures input.direction == Inbound && input.key == d.recordKey
  {
  }

  // The row of a recorded delivery.
  predicate RecordedFor(row: Transfer, d: Delivery, a: AccountId) {
    && row.account == a && row.direction == Inbound && row.status == d.status && row.amount == d.amount
    && row.provider == d.provider && row.reference == d.reference && row.event == Some(d.event)
    && row.fingerprint == d.fingerprint && row.failure == d.failure
  }

  lemma DeliveredRow(db: DB, d: Delivery, a: AccountId, settlement: AccountId, env: Env, input: RecordInput)
    requires Normalised(d) && input == InboundRecord(d, a, settlement)
    requires RecordedStatus(db, input) == d.status && !Short(db, input)
    ensures RecordedFor(RecordedRow(db, input, env), d, a)
    ensures EventsWith(db, input, env.transfer)
         == db.events[EventKeyOf(d) := ProviderEvent(Some(env.transfer), d.fingerprint, d.reference)]
  {
  }

  /** An event for an account in use, customer or internal, that was not seen before is recorded
      with its status. If it says succeeded it credits the account, even one under
      post-no-debit; otherwise no money moves. */
  lemma DeliveryRecorded(db: DB, d: Delivery, a: AccountId, settlement: AccountId, env: Env, next: DB)
    requires Inv(db) && Normalised(d) && FirstSeen(db, d) && Reachable(db, d, a, settlement)
    requires NoneFound(db, InboundRecord(d, a, settlement), env)
    requires next == Step(db, FirstRequest(db, d, settlement), env)
    ensures d.status == Succeeded ==>
      && next.journals == db.journals[env.journal := Booked(env.transfer, Inbound, settlement, a, d.amount, NGN)]
      && Pays(db, next, settlement, a, d.amount, env.journal, false)
    ensures d.status != Succeeded ==> MoneyStill(db, next)
    ensures OnRecord(db, next, d, env.transfer) && next.byKey == db.byKey[d.recordKey := env.transfer]
    ensures env.transfer in next.transfers && RecordedFor(next.transfers[env.transfer], d, a)
  {
    var input := InboundRecord(d, a, settlement);
    RecordedFirst(db, d, a, settlement);
    InboundRecordable(db, d, a, settlement, env, input);
    DeliveredRow(db, d, a, settlement, env, input);
    RecordLeaves(db, input, env, next);
  }

  /** An event for a frozen or closed customer account goes to review, and stays on record. */
  lemma BlockedGoesToReview(db: DB, d: Delivery, a: AccountId, settlement: AccountId, env: Env, next: DB)
    requires Inv(db) && Normalised(d) && FirstSeen(db, d) && env.transfer !in db.transfers
    requires d.destination == Some(a) && a in db.accounts && FrozenOrClosed(db.accounts[a])
    requires next == Step(db, FirstRequest(db, d, settlement), env)
    ensures UpForReview(db, next, d, env.transfer, a, 5) && MoneyStill(db, next) && OnRecord(db, next, d, env.transfer)
  {
    Reviewed(db, d, a, 5, true, env, next);
  }

  /** An event for an account nobody knows goes to review on the settlement account. */
  lemma UnknownGoesToReview(db: DB, d: Delivery, settlement: AccountId, env: Env, next: DB)
    requires Inv(db) && Normalised(d) && FirstSeen(db, d) && env.transfer !in db.transfers
    requires d.destination == None && settlement in db.accounts
    requires next == Step(db, FirstRequest(db, d, settlement), env)
    ensures UpForReview(db, next, d, env.transfer, settlement, 4) && MoneyStill(db, next)
    ensures OnRecord(db, next, d, env.transfer)
  {
    Reviewed(db, d, settlement, 4, true, env, next);
  }

  /** After a conflict the delivery is put to review beside the event on record, which it leaves alone. */
  lemma ConflictGoesToReview(db: DB, d: Delivery, a: AccountId, env: Env)
    requires Inv(db) && Normalised(d) && d.reviewKey !in db.byKey && env.transfer !in db.transfers
    requires d.destination == Some(a) && a in db.accounts
    ensures SecondRequest(db, d, Conflict).Some?
    ensures var next := Step(db, SecondRequest(db, d, Conflict).value, env);
            UpForReview(db, next, d, env.transfer, a, 6) && MoneyStill(db, next) && next.events == db.events
  {
    Reviewed(db, d, a, 6, false, env, Step(db, SecondRequest(db, d, Conflict).value, env));
  }

  /** Refused for another reason, it is put to review exactly if the account was blocked meanwhile. */
  lemma BlockedMeanwhileIff(db: DB, d: Delivery, a: AccountId, error: Error)
    requires d.destination == Some(a) && a in db.accounts && error != Conflict
    ensures SecondRequest(db, d, error)
         == if error == InvalidRequest && FrozenOrClosed(db.accounts[a])
            then Some(Review(InboundReview(d, a, 5, true))) else None
  {
  }
}
