/** Why a recorded request may answer with a transfer that was there before it. */
module Replays {
  import opened Types
  import opened Policy
  import opened Transfers
  import opened Steps
  import opened Invariant
  import opened Decisions

  // The transfer moved the very amount between the very accounts the request names.
  predicate SameRequest(db: DB, id: TransferId, input: RecordInput) {
    && Posts(db, id)
    && var row, postings := db.transfers[id], JournalOf(db, id).postings;
       && row.provider == input.provider && row.reference == input.reference && row.direction == input.direction
       && row.account == input.account && row.amount == input.amount && row.currency == input.currency
       && row.reversalOf == input.reversalOf
       && |postings| == 2
       && {postings[0].account, postings[1].account} == {input.account, input.clearing}
  }

  predicate SameKey(db: DB, id: TransferId, input: RecordInput) {
    && id in db.transfers && db.transfers[id].key == input.key
    && (db.transfers[id].fingerprint == FingerprintOf(input)
        || (db.transfers[id].fingerprint == NoFingerprint && SameRequest(db, id, input)))
  }

  predicate SameEvent(db: DB, id: TransferId, input: RecordInput) {
    && id in db.transfers && input.event.Some?
    && var key := EventKey(input.provider, input.event.value);
       && key in db.events && db.events[key].transfer == Some(id)
       && (db.events[key].fingerprint == FingerprintOf(input) || db.events[key].fingerprint == NoFingerprint)
  }

  predicate Justified(db: DB, id: TransferId, input: RecordInput) {
    SameKey(db, id, input) || SameEvent(db, id, input) || SameRequest(db, id, input)
  }

  lemma FieldsMatch(db: DB, id: TransferId, input: RecordInput)
    requires RowsOk(db) && id in db.transfers
    ensures ReplayByFields(db, id, db.transfers[id], input).Done? ==> SameRequest(db, id, input)
  {
    assert RowOk(db, id);
    if db.transfers[id].journal.Some? {
      assert JournalOk(db, db.transfers[id].journal.value);
      CounterpartyIs(db, id);
    }
  }

  lemma KeyMatches(db: DB, input: RecordInput, id: TransferId)
    requires RowsOk(db) && id in db.transfers && db.transfers[id].key == input.key
    ensures ReplayByKey(db, id, db.transfers[id], input).Done? ==> SameKey(db, id, input)
  {
    FieldsMatch(db, id, input);
  }

  // A reply that writes nothing names a transfer the request has a right to.
  predicate JustifiedReply(db: DB, reply: Reply, input: RecordInput) {
    reply.Done? && reply.change == NoChange ==> Justified(db, reply.id, input)
  }

  lemma FreshJustified(db: DB, input: RecordInput, env: Env)
    ensures JustifiedReply(db, RecordFresh(db, input, env).reply, input)
  {
  }

  lemma SettleJustified(db: DB, id: TransferId, input: RecordInput, env: Env)
    requires id in db.transfers
    ensures JustifiedReply(db, Settle(db, id, input, env).reply, input)
  {
  }

  lemma ReferenceJustified(db: DB, input: RecordInput, env: Env)
    requires RowsOk(db)
    ensures JustifiedReply(db, RecordByReference(db, input, env).reply, input)
  {
    FreshJustified(db, input, env);
    if env.pendingPick.Some? && PendingMatch(db, env.pendingPick.value, input) {
      SettleJustified(db, env.pendingPick.value, input, env);
    }
    if env.settledPick.Some? && SettledMatch(db, env.settledPick.value, input) {
      FieldsMatch(db, env.settledPick.value, input);
    }
  }

  /** A request answered with an existing transfer, and nothing written, carried that
      transfer's key and payload, or a provider event recorded for it with this payload, or
      named the same posted movement between the same two accounts. */
  lemma ReplayIsJustified(db: DB, input: RecordInput, env: Env)
    requires Inv(db)
    ensures JustifiedReply(db, RecordTransfer(db, input, env).reply, input)
  {
    if input.key in db.byKey && db.byKey[input.key] in db.transfers {
      assert KeyOk(db, input.key);
      KeyMatches(db, input, db.byKey[input.key]);
    } else {
      ReferenceJustified(db, input, env);
      FreshJustified(db, input, env);
    }
  }

  /** A request that settles a transfer names its provider, reference, direction, account,
      amount and currency, and found it pending. */
  lemma SettlesWhatItNames(db: DB, input: RecordInput, env: Env)
    requires Committed(db, Record(input), env).Advance?
    ensures var id := Committed(db, Record(input), env).id;
            && id in db.transfers
            && var row := db.transfers[id];
               && row.status == Pending && input.reference != Blank
               && row.provider == input.provider && row.reference == input.reference && row.direction == input.direction
               && row.account == input.account && row.amount == input.amount && row.currency == input.currency
  {
    if env.pendingPick.Some? && PendingMatch(db, env.pendingPick.value, input) {
      SettleAdvances(db, env.pendingPick.value, input, env);
    }
  }

  lemma SettleAdvances(db: DB, id: TransferId, input: RecordInput, env: Env)
    requires id in db.transfers
    ensures var reply := Settle(db, id, input, env).reply;
            reply.Done? && reply.change.Advance? ==>
              reply.change.id == id && db.transfers[id].direction == input.direction
                && SameMovement(db.transfers[id], input)
  {
  }

  // ---- and when it must --------------------------------------------------------------------

  /** A final request of an unused key and event that found no pending transfer but a settled
      one by provider, reference and direction is answered with it if it is the same request,
      and refused otherwise. */
  lemma ReferenceReplays(db: DB, input: RecordInput, env: Env, id: TransferId)
    requires RowsOk(db) && id in db.transfers && env.pendingPick == None && env.settledPick == Some(id)
    requires input.key !in db.byKey && (input.event.Some? ==> EventKey(input.provider, input.event.value) !in db.events)
    requires input.reference != Blank && input.status != Pending && db.transfers[id].status != Pending
    requires db.transfers[id].provider == input.provider && db.transfers[id].reference == input.reference
    requires db.transfers[id].direction == input.direction
    ensures if SameRequest(db, id, input) then Exec(db, Record(input), env).reply == Done(NoChange, id, false)
            else Exec(db, Record(input), env).reply.Fail?
  {
    SameIffReplays(db, id, input);
  }

  lemma SameIffReplays(db: DB, id: TransferId, input: RecordInput)
    requires RowsOk(db) && id in db.transfers
    ensures var reply := ReplayByFields(db, id, db.transfers[id], input);
            if SameRequest(db, id, input) then reply == Done(NoChange, id, false)
            else reply.Fail?
  {
    assert RowOk(db, id);
    if db.transfers[id].journal.Some? {
      assert JournalOk(db, db.transfers[id].journal.value);
      CounterpartyIs(db, id);
      var ps := JournalOf(db, id).postings;
      assert ps[0].account in {ps[0].account, ps[1].account} && ps[1].account in {ps[0].account, ps[1].account};
    }
  }

  // The fields a request is told apart by.
  predicate SameFieldsSent(x: RecordInput, y: RecordInput) {
    && x.provider == y.provider && x.direction == y.direction && x.status == y.status
    && x.account == y.account && x.clearing == y.clearing && x.amount == y.amount && x.currency == y.currency
    && x.reference == y.reference && x.event == y.event && x.providerStatus == y.providerStatus
    && x.reversalOf == y.reversalOf
    && x.rejectInsufficient == y.rejectInsufficient && x.requireAvailable == y.requireAvailable
  }

  /** A given fingerprint is the request's; without one, two requests have the same exactly when
      every one of these fields is the same. */
  lemma FingerprintsTell(x: RecordInput, y: RecordInput)
    ensures x.fingerprint != NoFingerprint ==> FingerprintOf(x) == x.fingerprint
    ensures x.fingerprint == NoFingerprint == y.fingerprint ==>
      (FingerprintOf(x) == FingerprintOf(y) <==> SameFieldsSent(x, y))
  {
  }
}
