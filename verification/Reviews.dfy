/** Putting a provider event up for manual review: exactly when, and what it leaves. */
module Reviews {
  import opened Types
  import opened Ledger
  import opened Steps
  import opened Invariant
  import opened Effects

  function ReviewKey(input: ReviewInput): EventKey {
    EventKey(input.provider, input.event)
  }

  // The provider status it carries; a blank one is filled in from the status.
  function Told(input: ReviewInput): Status {
    if input.providerStatus == NoStatus then input.status else input.providerStatus
  }

  // A complete request with known statuses.
  predicate Whole(input: ReviewInput) {
    && input.amount > 0 && input.currency == NGN && input.reference != Blank && input.fingerprint != NoFingerprint
    && KnownWord(input.status) && (KnownWord(Told(input)) || Told(input) == ProviderUnknown)
  }

  predicate Reviewable(db: DB, input: ReviewInput) {
    && Whole(input) && input.key !in db.byKey && input.account in db.accounts
    && (input.reserveEvent ==> ReviewKey(input) !in db.events)
  }

  function ReviewedRow(input: ReviewInput, env: Env): Transfer {
    Transfer(
      input.account, input.direction, input.status, Told(input), NoPosting, ManualReview, input.amount,
      input.currency, input.key, input.provider, input.reference, Some(input.event), None, None,
      input.fingerprint, input.failure, env.now, env.now)
  }

  function ReviewedChange(input: ReviewInput, env: Env): Change {
    Insert(env.transfer, ReviewedRow(input, env), None, KeepHold,
      if input.reserveEvent
      then Some(EventWrite(ReviewKey(input), ProviderEvent(Some(env.transfer), input.fingerprint, input.reference)))
      else None)
  }

  lemma ReviewReply(db: DB, input: ReviewInput, env: Env)
    requires AccountsOk(db) && KeysOk(db) && EventsOk(db)
    ensures var reply := Exec(db, Review(input), env).reply;
            if Reviewable(db, input) then reply == Done(ReviewedChange(input, env), env.transfer, true)
            else reply.Done? ==> reply.change == NoChange
  {
    assert input.key in db.byKey ==> KeyOk(db, input.key);
    assert input.reserveEvent && ReviewKey(input) in db.events ==> EventOk(db, ReviewKey(input));
  }

  lemma ReviewLeaves(db: DB, input: ReviewInput, env: Env)
    requires input.direction == Inbound
    ensures Apply(db, ReviewedChange(input, env)) == db.(
      transfers := db.transfers[env.transfer := ReviewedRow(input, env)],
      byKey := db.byKey[input.key := env.transfer],
      events := if input.reserveEvent
                then db.events[ReviewKey(input) :=
                                 ProviderEvent(Some(env.transfer), input.fingerprint, input.reference)]
                else db.events)
  {
  }

  /** A review is recorded if and only if the request is complete, its key unused, its account
      known, and its event, where it reserves it, not on record. It leaves an unposted row for
      manual review, and the event on record linked to it; nothing else. */
  lemma ReviewIsRecorded(db: DB, input: ReviewInput, env: Env, next: DB)
    requires AccountsOk(db) && KeysOk(db) && EventsOk(db) && env.transfer !in db.transfers
    requires next == Step(db, Review(input), env) && input.direction == Inbound
    ensures Committed(db, Review(input), env).Insert? <==> Reviewable(db, input)
    ensures Reviewable(db, input) ==>
      next == db.(
        transfers := db.transfers[env.transfer := ReviewedRow(input, env)],
        byKey := db.byKey[input.key := env.transfer],
        events := if input.reserveEvent
                  then db.events[ReviewKey(input) :=
                                   ProviderEvent(Some(env.transfer), input.fingerprint, input.reference)]
                  else db.events)
    ensures !Reviewable(db, input) ==> next == db
  {
    ReviewReply(db, input, env);
    ReviewLeaves(db, input, env);
  }

  /** A complete review whose event or key is on record is answered with that transfer for the
      same payload, and refused for another. */
  lemma ReviewReplays(db: DB, input: ReviewInput, env: Env)
    requires KeysOk(db) && EventsOk(db) && Whole(input)
    ensures input.reserveEvent && ReviewKey(input) in db.events ==>
      var event := db.events[ReviewKey(input)];
      && event.transfer.Some?
      && Exec(db, Review(input), env).reply
         == if event.fingerprint == NoFingerprint || event.fingerprint == input.fingerprint
            then Done(NoChange, event.transfer.value, false) else Fail(Conflict)
    ensures !(input.reserveEvent && ReviewKey(input) in db.events) && input.key in db.byKey ==>
      var id := db.byKey[input.key];
      && id in db.transfers
      && Exec(db, Review(input), env).reply
         == if db.transfers[id].fingerprint == input.fingerprint then Done(NoChange, id, false) else Fail(Conflict)
  {
    assert input.key in db.byKey ==> KeyOk(db, input.key);
    assert input.reserveEvent && ReviewKey(input) in db.events ==> EventOk(db, ReviewKey(input));
  }
}
