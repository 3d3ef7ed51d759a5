/** The repository itself: tables updated statement by statement, each public method one
    transaction that either commits everything or puts everything back. */
module Store {
  import opened Types
  import opened Policy
  import opened Ledger
  import opened Transfers
  import opened Controls
  import opened Steps
  import opened Invariant
  import opened Decisions
  import Provider
  import opened ExactlyOnce
  import opened Runs

  // What a caller gets: the row's id and whether this call created it, or an error.
  datatype Answer = Returned(id: nat, created: bool) | Refused(error: Error)

  function AnswerOf(reply: Reply): Answer {
    match reply
    case Done(_, id, created) => Returned(id, created)
    case Fail(error) => Refused(error)
  }

  // What a transaction body has to achieve: its answer, and on success its statements.
  predicate Achieves(before: DB, after: DB, reply: Reply, answer: Answer) {
    answer == AnswerOf(reply) && (reply.Done? ==> after == Apply(before, reply.change))
  }

  /** The membership loop over the statuses a move may start from. */
  method AllowedAccountStatusTransition(current: AccountStatus, allowed: seq<AccountStatus>) returns (ok: bool)
    ensures ok <==> allowed == [] || current in allowed
  {
    if |allowed| == 0 { return true; }
    for i := 0 to |allowed|
      invariant current !in allowed[..i]
    {
      if current == allowed[i] { return true; }
    }
    return false;
  }

  lemma PostAllStep(accounts: map<AccountId, Account>, balances: map<AccountId, Balance>, postings: seq<Posting>,
                    i: nat,
                    held: Option<AccountId>, journal: JournalId)
    requires i < |postings|
    ensures PostAll(accounts, balances, postings[..i + 1], held, journal)
         == PostOne(accounts, PostAll(accounts, balances, postings[..i], held, journal), postings[i], held, journal)
  {
    assert postings[..i + 1][..i] == postings[..i];
  }

  class Repository {
    var accounts: map<AccountId, Account>
    var balances: map<AccountId, Balance>
    var journals: map<JournalId, Journal>
    var transfers: map<TransferId, Transfer>
    var byKey: map<Key, TransferId>
    var holds: map<TransferId, Hold>
    var liens: map<LienId, Hold>
    var events: map<EventKey, ProviderEvent>
    var reversals: map<TransferId, TransferId>

    function Tables(): DB
      reads this
    {
      DB(accounts, balances, journals, transfers, byKey, holds, liens, events, reversals)
    }

    constructor (db: DB)
      ensures Tables() == db
    {
      accounts, balances, journals := db.accounts, db.balances, db.journals;
      transfers, byKey, holds := db.transfers, db.byKey, db.holds;
      liens, events, reversals := db.liens, db.events, db.reversals;
    }

    // ROLLBACK
    method Restore(saved: DB)
      modifies this
      ensures Tables() == saved
    {
      accounts, balances, journals := saved.accounts, saved.balances, saved.journals;
      transfers, byKey, holds := saved.transfers, saved.byKey, saved.holds;
      liens, events, reversals := saved.liens, saved.events, saved.reversals;
    }

    // ---- ledger -------------------------------------------------------------------

    // One UPDATE: the ledger by the signed delta, the available balance too unless it is overridden.
    method ApplyPostingBalance(posting: Posting, normal: Side, journal: JournalId, held: Option<AccountId>)
      requires posting.account in accounts && posting.account in balances && accounts[posting.account].normal == normal
      modifies this`balances
      ensures balances == PostOne(accounts, old(balances), posting, held, journal)
      ensures balances.Keys == old(balances).Keys
    {
      var delta := -posting.amount;
      if (normal == Debit && posting.side == Debit) || (normal == Credit && posting.side == Credit) {
        delta := posting.amount;
      }
      var available := 0;
      if held != Some(posting.account) { available := delta; }
      var row := balances[posting.account];
      balances := balances[posting.account := Balance(row.available + available, row.ledger + delta, Some(journal))];
    }

    /** Writes the journal row, then posting by posting appends it and moves its balance. */
    method PostJournal(input: RecordInput, transfer: TransferId, journal: JournalId, held: Option<AccountId>)
      requires input.account in accounts && input.clearing in accounts
      requires input.account in balances && input.clearing in balances
      modifies this`journals, this`balances
      ensures journals == old(journals)[journal := JournalFor(input, transfer)]
      ensures balances == PostAll(accounts, old(balances), JournalFor(input, transfer).postings, held, journal)
      ensures balances.Keys == old(balances).Keys
    {
      var entryDirection := input.direction;
      if input.reversalOf.Some? { entryDirection := Reversal; }
      var debit, credit := input.clearing, input.account;
      if input.direction == Outbound { debit, credit := input.account, input.clearing; }
      var postings := [Posting(debit, Debit, input.amount), Posting(credit, Credit, input.amount)];
      journals := journals[journal := Journal(transfer, entryDirection, input.amount, input.currency, [])];
      ApplyPostings(postings, journal, held);
    }

    method ApplyPostings(postings: seq<Posting>, journal: JournalId, held: Option<AccountId>)
      requires journal in journals && journals[journal].postings == []
      requires forall posting | posting in postings :: posting.account in accounts && posting.account in balances
      modifies this`journals, this`balances
      ensures journals == old(journals)[journal := old(journals)[journal].(postings := postings)]
      ensures balances == PostAll(accounts, old(balances), postings, held, journal)
      ensures balances.Keys == old(balances).Keys
    {
      assert postings[..0] == [] && journals == journals[journal := journals[journal]];
      for i := 0 to |postings|
        invariant journals == old(journals)[journal := old(journals)[journal].(postings := postings[..i])]
        invariant balances == PostAll(accounts, old(balances), postings[..i], held, journal)
        invariant balances.Keys == old(balances).Keys
      {
        var posting := postings[i];
        journals := journals[journal := journals[journal].(postings := journals[journal].postings + [posting])];
        ApplyPostingBalance(posting, accounts[posting.account].normal, journal, held);
        PostAllStep(accounts, old(balances), postings, i, held, journal);
        assert postings[..i + 1] == postings[..i] + [posting];
      }
      assert postings[..|postings|] == postings;
    }

    // ---- holds ---------------------------------------------------------------------

    method AdjustAvailable(account: AccountId, amount: int)
      requires account in balances
      modifies this`balances
      ensures balances == Adjust(old(balances), account, amount, 0)
    {
      balances := balances[account := balances[account].(available := balances[account].available + amount)];
    }

    method CreateHold(id: TransferId, row: Transfer)
      requires row.account in balances
      modifies this`holds, this`balances
      ensures holds == old(holds)[id := HoldFor(row)]
      ensures balances == Adjust(old(balances), row.account, -row.amount, 0)
    {
      holds := holds[id := HoldFor(row)];
      AdjustAvailable(row.account, -row.amount);
    }

    // No active hold is not an error here.
    method ReleaseHold(id: TransferId) returns (error: Option<Error>)
      modifies this`holds, this`balances
      ensures !old(ActiveHold(Tables(), id)) ==> error == None && holds == old(holds) && balances == old(balances)
      ensures old(ActiveHold(Tables(), id)) && old(holds)[id].account in old(balances) ==>
        && error == None
        && holds == old(holds)[id := old(holds)[id].(status := Released)]
        && balances == Adjust(old(balances), old(holds)[id].account, old(holds)[id].amount, 0)
      ensures old(ActiveHold(Tables(), id)) && old(holds)[id].account !in old(balances) ==> error == Some(DataIntegrity)
    {
      if !(id in holds && holds[id].status == Active) { return None; }
      var hold := holds[id];
      holds := holds[id := hold.(status := Released)];
      if hold.account !in balances { return Some(DataIntegrity); }
      AdjustAvailable(hold.account, hold.amount);
      return None;
    }

    method ConsumeHold(id: TransferId) returns (error: Option<Error>)
      modifies this`holds
      ensures old(ActiveHold(Tables(), id)) ==>
        error == None && holds == old(holds)[id := old(holds)[id].(status := Consumed)]
      ensures !old(ActiveHold(Tables(), id)) ==> error == Some(NotFound) && holds == old(holds)
    {
      if !(id in holds && holds[id].status == Active) { return Some(NotFound); }
      holds := holds[id := holds[id].(status := Consumed)];
      return None;
    }

    // ---- provider events -------------------------------------------------------------

    // INSERT ... ON CONFLICT DO NOTHING
    method ReserveEvent(input: RecordInput, linked: Option<TransferId>) returns (inserted: bool)
      requires input.event.Some?
      modifies this`events
      ensures inserted == !old(EventTaken(Tables(), input))
      ensures events == if inserted
        then old(events)[EventKey(input.provider, input.event.value) :=
                           ProviderEvent(linked, FingerprintOf(input), input.reference)]
        else old(events)
    {
      var key := EventKey(input.provider, input.event.value);
      inserted := key !in events;
      if inserted { events := events[key := ProviderEvent(linked, FingerprintOf(input), input.reference)]; }
    }

    // Reserving and linking in one statement, as settlement does.
    method ReserveFor(input: RecordInput, id: TransferId)
      requires input.event.Some? && !EventTaken(Tables(), input)
      modifies this`events
      ensures events == WithEvent(old(events), Reserve(input, id))
    {
      var inserted := ReserveEvent(input, Some(id));
      assert inserted;
    }

    method LinkEvent(id: TransferId, key: EventKey) returns (error: Option<Error>)
      modifies this`events
      ensures key in old(events) && (old(events)[key].transfer == None || old(events)[key].transfer == Some(id)) ==>
        error == None && events == old(events)[key := old(events)[key].(transfer := Some(id))]
      ensures !(key in old(events) && (old(events)[key].transfer == None || old(events)[key].transfer == Some(id))) ==>
        error == Some(Conflict) && events == old(events)
    {
      if key !in events || (events[key].transfer != None && events[key].transfer != Some(id)) { return Some(Conflict); }
      events := events[key := events[key].(transfer := Some(id))];
      return None;
    }

    // ---- recordTransfer ----------------------------------------------------------------

    // INSERT INTO transfers, with its two unique indexes.
    method InsertRow(id: TransferId, row: Transfer)
      modifies this`transfers, this`byKey, this`reversals
      ensures transfers == old(transfers)[id := row] && byKey == old(byKey)[row.key := id]
      ensures reversals == MarkReversal(old(reversals), id, row)
    {
      transfers := transfers[id := row];
      byKey := byKey[row.key := id];
      reversals := MarkReversal(reversals, id, row);
    }

    // UPDATE transfers
    method UpdateRow(id: TransferId, row: Transfer)
      modifies this`transfers, this`reversals
      ensures transfers == old(transfers)[id := row]
      ensures reversals == MarkReversal(old(reversals), id, row)
    {
      transfers := transfers[id := row];
      reversals := MarkReversal(reversals, id, row);
    }

    // ---- replays --------------------------------------------------------------------

    // The transfer behind a provider event already on record.
    method ExistingEventTransfer(key: EventKey, fingerprint: Fingerprint) returns (answer: Answer)
      ensures answer == AnswerOf(ReplayByEvent(Tables(), key, fingerprint))
    {
      if key !in events { return Refused(Conflict); }
      var event := events[key];
      if event.fingerprint != NoFingerprint && event.fingerprint != fingerprint { return Refused(Conflict); }
      if event.transfer == None || event.transfer.value !in transfers { return Refused(Conflict); }
      return Returned(event.transfer.value, false);
    }

    /** The accounts on the other side of a journal: there has to be exactly one. */
    method OriginalCounterparty(row: Transfer) returns (counterparty: Option<AccountId>)
      ensures counterparty == Counterparty(Tables(), row)
    {
      if row.journal == None || row.journal.value !in journals { return None; }
      var others := Others(journals[row.journal.value].postings, row.account);
      if |others| != 1 { return None; }
      return Some(others[0].account);
    }

    method SameTransferReplayByFields(id: TransferId, row: Transfer, input: RecordInput) returns (answer: Answer)
      ensures answer == AnswerOf(ReplayByFields(Tables(), id, row, input))
    {
      if !SameFields(row, input) || row.journal == None { return Refused(Conflict); }
      var counterparty := OriginalCounterparty(row);
      if counterparty == None { return Refused(DataIntegrity); }
      if counterparty.value != input.clearing { return Refused(Conflict); }
      return Returned(id, false);
    }

    method SameTransferReplay(id: TransferId, row: Transfer, input: RecordInput) returns (answer: Answer)
      ensures answer == AnswerOf(ReplayByKey(Tables(), id, row, input))
    {
      if row.fingerprint != NoFingerprint {
        if row.fingerprint != FingerprintOf(input) { return Refused(Conflict); }
        return Returned(id, false);
      }
      answer := SameTransferReplayByFields(id, row, input);
    }

    /** Locks both accounts with their balances, the smaller id first. */
    method LockTransferAccounts(account: AccountId, clearing: AccountId) returns (error: Option<Error>)
      ensures error == MissingPair(Tables(), account, clearing)
    {
      if account == clearing { return Some(InvalidRequest); }
      var first, second := account, clearing;
      if second < first { first, second := second, first; }
      error := LockAccount(first);
      if error.Some? { return; }
      error := LockAccount(second);
    }

    method LockAccount(account: AccountId) returns (error: Option<Error>)
      ensures error == MissingAccount(Tables(), account)
    {
      if account !in accounts { return Some(NotFound); }
      if account !in balances { return Some(DataIntegrity); }
      return None;
    }

    // The local statuses, reassigned branch by branch into the row to be inserted.
    method PrepareRow(input: RecordInput, account: Account, balance: Balance, env: Env) returns (row: Transfer,
                      insufficient: bool)
      ensures row == FreshRow(input, account, balance, env)
      ensures insufficient == Underfunded(input, account, balance)
    {
      var providerStatus := input.providerStatus;
      if providerStatus == NoStatus { providerStatus := input.status; }
      var status := input.status;
      if providerStatus == ProviderUnknown { status := Pending; }
      var failure := input.failure;
      insufficient := CustomerInitiatedOutbound(input) && !CanUseAvailable(account, balance.available, input.amount);
      if CustomerInitiatedOutbound(input) && input.requireAvailable && balance.available < input.amount {
        insufficient := true;
      }
      if insufficient {
        status := Failed;
        failure := Word(InsufficientFunds);
      }
      var ledgerStatus, reconciliation := LedgerStatusOf(status), ReconciliationOf(status);
      if providerStatus == ProviderUnknown { reconciliation := ManualReview; }
      if status == Succeeded && CreatesReversalDeficit(account, balance, input) {
        ledgerStatus, reconciliation := ReversalDeficit, ManualReview;
      }
      var journal := None;
      if status == Succeeded { journal := Some(env.journal); }
      row := Transfer(input.account, input.direction, status, providerStatus, ledgerStatus, reconciliation,
                      input.amount, input.currency, input.key, input.provider, input.reference, input.event,
                      journal, input.reversalOf, FingerprintOf(input), failure, env.now, env.now);
    }

    // Posts, inserts the row and opens its hold, in that order.
    method WriteFresh(input: RecordInput, row: Transfer, env: Env)
      requires input.account in accounts && input.clearing in accounts
      requires input.account in balances && input.clearing in balances
      requires row.account == input.account && row.amount == input.amount
      modifies this`journals, this`balances, this`transfers, this`byKey, this`reversals, this`holds
      ensures Tables()
        == Apply(old(Tables()), Insert(env.transfer, row, FreshEntry(input, row, env), FreshHold(input, row), None))
    {
      if row.status == Succeeded { PostJournal(input, env.transfer, env.journal, None); }
      InsertRow(env.transfer, row);
      if row.status == Pending && CustomerInitiatedOutbound(input) { CreateHold(env.transfer, row); }
    }

    method RecordFreshTransfer(input: RecordInput, env: Env) returns (answer: Answer)
      modifies this
      ensures Achieves(old(Tables()), Tables(), RecordFresh(old(Tables()), input, env).reply, answer)
    {
      var missing := LockTransferAccounts(input.account, input.clearing);
      if missing.Some? { return Refused(missing.value); }
      answer := RecordControlled(input, env);
    }

    method RecordControlled(input: RecordInput, env: Env) returns (answer: Answer)
      requires MissingPair(Tables(), input.account, input.clearing) == None
      modifies this
      ensures Achieves(old(Tables()), Tables(), RecordLocked(old(Tables()), input, env), answer)
    {
      var account, clearing := accounts[input.account], accounts[input.clearing];
      if !ControlsAllow(input, account, clearing) { return Refused(InvalidRequest); }
      var row, insufficient := PrepareRow(input, account, balances[input.account], env);
      if insufficient && input.rejectInsufficient { return Refused(Insufficient); }
      answer := InsertReserved(input, row, env);
    }

    // Reserves the event, writes the transfer, then links the event to it.
    method InsertReserved(input: RecordInput, row: Transfer, env: Env) returns (answer: Answer)
      requires MissingPair(Tables(), input.account, input.clearing) == None
      requires row.account == input.account && row.amount == input.amount
      modifies this
      ensures answer == (if old(EventTaken(Tables(), input)) then
                           AnswerOf(ReplayByEvent(old(Tables()), EventKey(input.provider, input.event.value),
                                                  FingerprintOf(input)))
                         else if input.amount <= 0 || !ValidStatus(row.status)
                                 || !ValidProviderStatus(row.providerStatus)
                         then Refused(CheckViolation) else Returned(env.transfer, true))
      ensures old(EventTaken(Tables(), input)) ==> Tables() == old(Tables())
      ensures answer.Returned? && !old(EventTaken(Tables(), input)) ==> Tables() == Apply(old(Tables()),
        Insert(env.transfer, row, FreshEntry(input, row, env), FreshHold(input, row), Reserve(input, env.transfer)))
    {
      if input.event.Some? {
        var inserted := ReserveEvent(input, None);
        if !inserted {
          answer := ExistingEventTransfer(EventKey(input.provider, input.event.value), FingerprintOf(input));
          return;
        }
      }
      if input.amount <= 0 || !ValidStatus(row.status) || !ValidProviderStatus(row.providerStatus) {
        return Refused(CheckViolation);
      }
      WriteFresh(input, row, env);
      if input.event.Some? {
        var error := LinkEvent(env.transfer, EventKey(input.provider, input.event.value));
        match error {
          case Some(e) => return Refused(e);
          case None =>
        }
      }
      return Returned(env.transfer, true);
    }

    method RecordTransferBody(input: RecordInput, env: Env) returns (answer: Answer)
      requires HoldsOk(Tables())
      modifies this
      ensures Achieves(old(Tables()), Tables(), RecordTransfer(old(Tables()), input, env).reply, answer)
    {
      if input.key in byKey && byKey[input.key] in transfers {
        answer := SameTransferReplay(byKey[input.key], transfers[byKey[input.key]], input);
        return;
      }
      if input.event.Some? && LinkedTransfer(Tables(), EventKey(input.provider, input.event.value)).Some? {
        answer := ExistingEventTransfer(EventKey(input.provider, input.event.value), FingerprintOf(input));
        return;
      }
      if ByReference(input) {
        if env.pendingPick.Some? && PendingMatch(Tables(), env.pendingPick.value, input) {
          answer := SettlePendingTransfer(env.pendingPick.value, input, env);
          return;
        }
        if env.settledPick.Some? && SettledMatch(Tables(), env.settledPick.value, input) {
          answer := SameTransferReplayByFields(env.settledPick.value, transfers[env.settledPick.value], input);
          return;
        }
      }
      answer := RecordFreshTransfer(input, env);
    }

    // ---- settlement -------------------------------------------------------------------

    // The local statuses of an outcome, reassigned branch by branch into the row to be written.
    method PrepareOutcome(pending: Transfer, input: RecordInput, status: Status, account: Account, balance: Balance,
                          reference: Text, env: Env) returns (row: Transfer)
      ensures row == OutcomeRow(pending, input, status, account, balance, reference, env)
    {
      var providerStatus := input.providerStatus;
      if providerStatus == NoStatus { providerStatus := input.status; }
      var ledgerStatus, reconciliation := LedgerStatusOf(status), ReconciliationOf(status);
      if providerStatus == ProviderUnknown { reconciliation := ManualReview; }
      var journal := None;
      if status == Succeeded {
        if CreatesReversalDeficit(account, balance, input) {
          ledgerStatus, reconciliation := ReversalDeficit, ManualReview;
        }
        journal := Some(env.journal);
      }
      var event := pending.event;
      if input.event.Some? { event := input.event; }
      row := pending.(status := status, providerStatus := providerStatus, ledgerStatus := ledgerStatus,
                      reconciliation := reconciliation, reference := reference, event := event, journal := journal,
                      failure := input.failure, updatedAt := env.now);
    }

    /** Posts a pending transfer; where a hold guards the funds the posting leaves the
        available balance alone and the hold is consumed instead. */
    method SucceedPending(id: TransferId, input: RecordInput, journal: JournalId,
                          consumes: bool) returns (error: Option<Error>)
      requires MissingPair(Tables(), input.account, input.clearing) == None
      modifies this`journals, this`balances, this`holds
      ensures error
        == old(SettleError(Tables(), id, input, accounts[input.account], accounts[input.clearing], consumes))
      ensures error == None ==> journals == old(journals)[journal := JournalFor(input, id)]
      ensures error == None ==>
        balances == PostAll(accounts, old(balances), JournalFor(input, id).postings,
                            if consumes then Some(input.account) else None, journal)
      ensures error == None ==>
        holds == if consumes && id in old(holds)
                 then old(holds)[id := old(holds)[id].(status := Consumed)] else old(holds)
    {
      var account := accounts[input.account];
      if !ControlsAllow(input, account, accounts[input.clearing]) { return Some(InvalidRequest); }
      if CustomerInitiatedOutbound(input) && !account.allowNegative && !ActiveHold(Tables(), id) {
        return Some(NotFound);
      }
      var held := None;
      if consumes { held := Some(input.account); }
      PostJournal(input, id, journal, held);
      if consumes {
        error := ConsumeHold(id);
        return;
      }
      return None;
    }

    method SettlePendingTransfer(id: TransferId, input: RecordInput, env: Env) returns (answer: Answer)
      requires id in transfers && HoldsOk(Tables())
      modifies this
      ensures Achieves(old(Tables()), Tables(), Settle(old(Tables()), id, input, env).reply, answer)
    {
      var pending := transfers[id];
      if pending.direction != input.direction || !SameMovement(pending, input) { return Refused(Conflict); }
      var missing := LockTransferAccounts(pending.account, input.clearing);
      if missing.Some? { return Refused(missing.value); }
      if EventTaken(Tables(), input) {
        answer := ExistingEventTransfer(EventKey(input.provider, input.event.value), FingerprintOf(input));
        return;
      }
      assert id in holds ==> HoldOk(Tables(), id);
      answer := SettleReserved(id, input, env);
    }

    /** Posts and consumes the hold, or releases it: the money side of a final outcome. */
    method FinalisePending(id: TransferId, row: Transfer, input: RecordInput, held: bool, journal: JournalId)
        returns (error: Option<Error>)
      requires row.status == Succeeded || row.status == Failed
      requires row.account == input.account && (id in holds ==> holds[id].account == input.account)
      requires MissingPair(Tables(), input.account, input.clearing) == None
      modifies this`journals, this`balances, this`holds
      ensures error == if row.status == Failed then None
                       else old(SettleError(Tables(), id, input, accounts[input.account],
                                            accounts[input.clearing], held))
      ensures error == None ==> journals == WithEntry(old(journals), OutcomeEntry(id, row, input, journal))
      ensures error == None ==>
        balances == old(ApplyHoldBalance(Tables(),
          PostEntry(Tables(), OutcomeEntry(id, row, input, journal),
            HeldAccount(row, OutcomeHold(Tables(), id, row, held))),
          id, row, OutcomeHold(Tables(), id, row, held)))
      ensures error == None ==> holds == old(ApplyHold(holds, id, row, OutcomeHold(Tables(), id, row, held)))
    {
      error := None;
      if row.status == Succeeded {
        error := SucceedPending(id, input, journal, held);
      } else if held {
        error := ReleaseHold(id);
      }
    }

    // Reserves the event for this transfer, finalises it, and updates its row.
    method WriteOutcome(id: TransferId, row: Transfer, input: RecordInput, held: bool, journal: JournalId)
        returns (error: Option<Error>)
      requires row.status == Succeeded || row.status == Failed
      requires row.account == input.account && (id in holds ==> holds[id].account == input.account)
      requires MissingPair(Tables(), input.account, input.clearing) == None
      requires !EventTaken(Tables(), input)
      modifies this
      ensures error == old(OutcomeError(Tables(), id, row, input, held))
      ensures error == None ==> Tables() == old(Apply(Tables(), OutcomeChange(Tables(), id, row, input, held, journal)))
    {
      if input.event.Some? { ReserveFor(input, id); }
      error := FinaliseRow(id, row, input, held, journal);
    }

    // Finalises the transfer and updates its row.
    method FinaliseRow(id: TransferId, row: Transfer, input: RecordInput, held: bool, journal: JournalId)
        returns (error: Option<Error>)
      requires row.status == Succeeded || row.status == Failed
      requires row.account == input.account && (id in holds ==> holds[id].account == input.account)
      requires MissingPair(Tables(), input.account, input.clearing) == None
      modifies this`journals, this`balances, this`holds, this`transfers, this`reversals
      ensures error == old(OutcomeError(Tables(), id, row, input, held))
      ensures error == None ==>
        Tables() == old(Apply(Tables(), OutcomeChange(Tables(), id, row, input, held, journal)).(events := events))
    {
      error := FinalisePending(id, row, input, held, journal);
      if error != None { return; }
      if !ValidProviderStatus(row.providerStatus) { return Some(CheckViolation); }
      UpdateRow(id, row);
    }

    method SettleReserved(id: TransferId, input: RecordInput, env: Env) returns (answer: Answer)
      requires id in transfers && SameMovement(transfers[id], input)
      requires id in holds ==> holds[id].account == input.account
      requires MissingPair(Tables(), input.account, input.clearing) == None
      requires !EventTaken(Tables(), input)
      modifies this
      ensures Achieves(old(Tables()), Tables(), SettleLocked(old(Tables()), id, input, env), answer)
    {
      var pending := transfers[id];
      var status := EffectiveStatus(input);
      if status != Succeeded && status != Failed { return Refused(InvalidRequest); }
      var row := PrepareOutcome(pending, input, status, accounts[input.account], balances[input.account],
                                pending.reference, env);
      var error := WriteOutcome(id, row, input, HoldsFunds(pending), env.journal);
      match error {
        case Some(e) => return Refused(e);
        case None => return Returned(id, false);
      }
    }

    // ---- completion and requery ----------------------------------------------------------

    method ExternalOutboundStatuses(input: RecordInput) returns (statuses: Option<(Status, Status)>)
      ensures statuses == CompletionStatuses(input)
    {
      var providerStatus := input.providerStatus;
      if providerStatus == NoStatus { providerStatus := input.status; }
      var status := input.status;
      if providerStatus == ProviderUnknown { status := Pending; }
      if status == NoStatus { status := providerStatus; }
      if !ValidStatus(status) || !ValidProviderStatus(providerStatus) { return None; }
      return Some((status, providerStatus));
    }

    method CompleteExternalOutbound(id: TransferId, input: RecordInput, env: Env) returns (answer: Answer)
      requires HoldsOk(Tables())
      modifies this
      ensures Achieves(old(Tables()), Tables(), CompleteOutbound(old(Tables()), id, input, env).reply, answer)
    {
      if id !in transfers { return Refused(NotFound); }
      var pending := transfers[id];
      if pending.direction != Outbound || !SameMovement(pending, input) || pending.provider != input.provider {
        return Refused(Conflict);
      }
      if input.fingerprint != NoFingerprint && pending.fingerprint != NoFingerprint
        && input.fingerprint != pending.fingerprint {
        return Refused(Conflict);
      }
      if pending.status != Pending { return Returned(id, false); }
      var missing := LockTransferAccounts(pending.account, input.clearing);
      if missing.Some? { return Refused(missing.value); }
      if EventTaken(Tables(), input) {
        answer := ExistingEventTransfer(EventKey(input.provider, input.event.value), FingerprintOf(input));
        return;
      }
      assert id in holds ==> HoldOk(Tables(), id);
      answer := CompleteReserved(id, input, env);
    }

    method CompleteReserved(id: TransferId, input: RecordInput, env: Env) returns (answer: Answer)
      requires id in transfers && SameMovement(transfers[id], input)
      requires id in holds ==> holds[id].account == input.account
      requires MissingPair(Tables(), input.account, input.clearing) == None
      requires !EventTaken(Tables(), input)
      modifies this
      ensures Achieves(old(Tables()), Tables(), CompleteLocked(old(Tables()), id, input, env), answer)
    {
      var pending := transfers[id];
      var statuses := ExternalOutboundStatuses(input);
      if statuses.None? { return Refused(InvalidRequest); }
      var status := statuses.value.0;
      var reference := input.reference;
      if reference == Blank { reference := pending.reference; }
      var row := PrepareOutcome(pending, input, status, accounts[input.account], balances[input.account],
                                reference, env);
      var error := None;
      if status == Pending {
        error := WritePending(id, row, input);
      } else {
        error := WriteOutcome(id, row, input, true, env.journal);
      }
      match error {
        case Some(e) => return Refused(e);
        case None => return Returned(id, false);
      }
    }

    // A completion that leaves the transfer pending: its hold has to be there still.
    method WritePending(id: TransferId, row: Transfer, input: RecordInput) returns (error: Option<Error>)
      requires row.status == Pending && !EventTaken(Tables(), input)
      modifies this
      ensures error == if old(ActiveHold(Tables(), id)) then None else Some(NotFound)
      ensures error == None ==> Tables() == old(Apply(Tables(), Advance(id, row, None, KeepHold, Reserve(input, id))))
    {
      if input.event.Some? { ReserveFor(input, id); }
      if !ActiveHold(Tables(), id) { return Some(NotFound); }
      UpdateRow(id, row);
      return None;
    }

    method RequeryBody(id: TransferId, input: RecordInput, env: Env) returns (answer: Answer)
      requires HoldsOk(Tables())
      modifies this
      ensures Achieves(old(Tables()), Tables(), RequeryTransfer(old(Tables()), id, input, env).reply, answer)
    {
      if id !in transfers { return Refused(NotFound); }
      var current := transfers[id];
      if current.provider == LedgerInternal { return Refused(InvalidRequest); }
      if current.provider != input.provider || current.direction != input.direction || !SameMovement(current, input) {
        return Refused(Conflict);
      }
      var known := input;
      if known.reference == Blank { known := known.(reference := current.reference); }
      if known.reference == Blank { return Refused(InvalidRequest); }
      if current.reference != Blank && current.reference != known.reference { return Refused(Conflict); }
      if current.status != Pending { return Returned(id, false); }
      if current.ledgerStatus != LedgerPending || !Requeryable(current.providerStatus) {
        return Refused(InvalidRequest);
      }
      answer := RequeryPendingTransfer(id, known, env);
    }

    method RequeryPendingTransfer(id: TransferId, input: RecordInput, env: Env) returns (answer: Answer)
      requires id in transfers && HoldsOk(Tables())
      modifies this
      ensures Achieves(old(Tables()), Tables(), RequeryPending(old(Tables()), id, input, env).reply, answer)
    {
      var statuses := ExternalOutboundStatuses(input);
      if statuses.None? { return Refused(InvalidRequest); }
      match transfers[id].direction {
        case Outbound => answer := CompleteExternalOutbound(id, input, env);
        case Inbound =>
          if statuses.value.0 == Pending {
            answer := UpdatePendingInbound(id, input, statuses.value.1, env);
          } else {
            answer := SettlePendingTransfer(id, input, env);
          }
        case Reversal => answer := Refused(InvalidRequest);
      }
    }

    method UpdatePendingInbound(id: TransferId, input: RecordInput, providerStatus: Status,
                                env: Env) returns (answer: Answer)
      requires id in transfers && transfers[id].direction == Inbound
      modifies this`transfers, this`reversals
      ensures Achieves(old(Tables()), Tables(),
                       RefreshPendingInbound(old(Tables()), id, input, providerStatus, env).reply, answer)
    {
      var pending := transfers[id];
      var missing := LockAccount(pending.account);
      if missing.Some? { return Refused(missing.value); }
      var ledgerStatus, reconciliation := LedgerStatusOf(Pending), ReconciliationOf(Pending);
      var failure := input.failure;
      if providerStatus == ProviderUnknown {
        reconciliation := ManualReview;
        if failure == Blank { failure := Word(UnknownAtProvider); }
      }
      UpdateRow(id, pending.(status := Pending, providerStatus := providerStatus, ledgerStatus := ledgerStatus,
                             reconciliation := reconciliation, reference := input.reference, failure := failure,
                             updatedAt := env.now));
      return Returned(id, false);
    }

    // ---- reversal --------------------------------------------------------------------------

    /** Records the opposite movement, accepts it only if it reverses this very transfer,
        and turns its row into a reversal. */
    method ReverseBody(input: ReverseInput, env: Env) returns (answer: Answer)
      requires Inv(Tables())
      modifies this
      ensures Achieves(old(Tables()), Tables(), ReverseTransfer(old(Tables()), input, env).reply, answer)
    {
      var o := input.transfer;
      if o !in transfers { return Refused(NotFound); }
      var original := transfers[o];
      if original.status != Succeeded || original.journal.None? || original.direction == Reversal {
        return Refused(InvalidRequest);
      }
      if o in reversals && reversals[o] in transfers {
        if transfers[reversals[o]].key != input.key { return Refused(Conflict); }
        return Returned(reversals[o], false);
      }
      var counterparty := OriginalCounterparty(original);
      if counterparty.None? { return Refused(DataIntegrity); }
      answer := ReverseRecorded(original, counterparty.value, input, env);
    }

    method ReverseRecorded(original: Transfer, counterparty: AccountId, input: ReverseInput,
                           env: Env) returns (answer: Answer)
      requires Inv(Tables()) && !(input.transfer in reversals && reversals[input.transfer] in transfers)
      modifies this
      ensures var recorded := RecordTransfer(old(Tables()), ReversalInput(original, counterparty, input), env).reply;
              Achieves(old(Tables()), Tables(), FinishReversal(old(Tables()), recorded, input, env), answer)
    {
      var record := ReversalInput(original, counterparty, input);
      ghost var before := Tables();
      answer := RecordTransferBody(record, env);
      if answer.Refused? { return; }
      RetagFinishes(before, Tables(), record, input, env);
      var id := answer.id;
      if id !in transfers || transfers[id].reversalOf != Some(input.transfer) { return Refused(Conflict); }
      UpdateRow(id, transfers[id].(direction := Reversal, updatedAt := env.now));
    }

    // ---- manual review of a provider event ---------------------------------------------------

    method ReviewBody(input: ReviewInput, env: Env) returns (answer: Answer)
      modifies this
      ensures Achieves(old(Tables()), Tables(), RecordReview(old(Tables()), input, env).reply, answer)
    {
      if !ValidReview(input) { return Refused(InvalidRequest); }
      if input.reserveEvent && LinkedTransfer(Tables(), ReviewEventKey(input)).Some? {
        answer := ExistingEventTransfer(ReviewEventKey(input), input.fingerprint);
        return;
      }
      if input.key in byKey && byKey[input.key] in transfers {
        if transfers[byKey[input.key]].fingerprint != input.fingerprint { return Refused(Conflict); }
        return Returned(byKey[input.key], false);
      }
      var missing := LockAccount(input.account);
      if missing.Some? { return Refused(missing.value); }
      if input.reserveEvent && ReviewEventKey(input) in events {
        answer := ExistingEventTransfer(ReviewEventKey(input), input.fingerprint);
        return;
      }
      answer := ReviewInsert(input, env.transfer, ReviewRow(input, env));
    }

    // Reserves the event, writes the review, then links the event to it.
    method ReviewInsert(input: ReviewInput, id: TransferId, row: Transfer) returns (answer: Answer)
      requires !(input.reserveEvent && ReviewEventKey(input) in events)
      modifies this`transfers, this`byKey, this`reversals, this`events
      ensures answer == Returned(id, true)
      ensures transfers == old(transfers)[id := row] && byKey == old(byKey)[row.key := id]
      ensures reversals == MarkReversal(old(reversals), id, row)
      ensures events == WithEvent(old(events), ReviewEvent(input, id))
    {
      if input.reserveEvent { ReserveReview(input); }
      InsertRow(id, row);
      if input.reserveEvent { LinkReview(input, id); }
      return Returned(id, true);
    }

    method ReserveReview(input: ReviewInput)
      requires ReviewEventKey(input) !in events
      modifies this`events
      ensures events == old(events)[ReviewEventKey(input) := ProviderEvent(None, input.fingerprint, input.reference)]
    {
      events := events[ReviewEventKey(input) := ProviderEvent(None, input.fingerprint, input.reference)];
    }

    method LinkReview(input: ReviewInput, id: TransferId)
      requires ReviewEventKey(input) in events && events[ReviewEventKey(input)].transfer == None
      modifies this`events
      ensures events
           == old(events)[ReviewEventKey(input) := old(events)[ReviewEventKey(input)].(transfer := Some(id))]
    {
      var error := LinkEvent(id, ReviewEventKey(input));
      assert error == None;
    }

    // ---- liens, status, accounts -----------------------------------------------------------------

    method PlaceLienBody(input: LienInput, env: Env) returns (answer: Answer)
      modifies this
      ensures Achieves(old(Tables()), Tables(), PlaceLienOn(old(Tables()), input, env).reply, answer)
    {
      var missing := LockAccount(input.account);
      if missing.Some? { return Refused(missing.value); }
      var account := accounts[input.account];
      if account.kind != Customer || account.status == Closed { return Refused(InvalidRequest); }
      if env.lienPick.Some? && ActiveLien(Tables(), env.lienPick.value, input.reference) {
        var existing := liens[env.lienPick.value];
        if existing.account != input.account || existing.amount != input.amount || existing.currency != input.currency {
          return Refused(Conflict);
        }
        return Returned(env.lienPick.value, false);
      }
      if account.currency != input.currency { return Refused(InvalidRequest); }
      if balances[input.account].available < input.amount { return Refused(Insufficient); }
      if input.amount <= 0 { return Refused(CheckViolation); }
      liens := liens[env.lien := Hold(input.account, input.amount, input.currency, Active, input.reference)];
      AdjustAvailable(input.account, -input.amount);
      return Returned(env.lien, true);
    }

    method ReleaseLienBody(input: ReleaseInput) returns (answer: Answer)
      modifies this
      ensures Achieves(old(Tables()), Tables(), ReleaseLienOn(old(Tables()), input).reply, answer)
    {
      if input.lien !in liens || liens[input.lien].account != input.account { return Refused(NotFound); }
      var current := liens[input.lien];
      if current.status != Active { return Returned(input.lien, false); }
      liens := liens[input.lien := current.(status := Released)];
      if input.account !in balances { return Refused(DataIntegrity); }
      AdjustAvailable(input.account, current.amount);
      return Returned(input.lien, false);
    }

    method SetStatusBody(input: StatusInput) returns (answer: Answer)
      modifies this
      ensures Achieves(old(Tables()), Tables(), SetAccountStatus(old(Tables()), input).reply, answer)
    {
      if input.account !in accounts { return Refused(NotFound); }
      var account := accounts[input.account];
      var allowed := AllowedAccountStatusTransition(account.status, input.allowed);
      if !allowed { return Refused(InvalidRequest); }
      if account.status != input.status { accounts := accounts[input.account := account.(status := input.status)]; }
      return Returned(input.account, false);
    }

    method CreateAccountBody(currency: Currency, env: Env) returns (answer: Answer)
      modifies this
      ensures Achieves(old(Tables()), Tables(), OpenAccount(currency, env).reply, answer)
    {
      accounts := accounts[env.account := Account(Customer, Credit, false, ActiveAccount, currency)];
      balances := balances[env.account := Balance(0, 0, None)];
      return Returned(env.account, true);
    }

    // ---- transactions ------------------------------------------------------------------------------

    method Body(op: Op, env: Env) returns (answer: Answer)
      requires Inv(Tables())
      modifies this
      ensures Achieves(old(Tables()), Tables(), Exec(old(Tables()), op, env).reply, answer)
    {
      match op {
        case Record(input) => answer := RecordTransferBody(input, env);
        case Complete(id, input) => answer := CompleteExternalOutbound(id, input, env);
        case Requery(id, input) => answer := RequeryBody(id, input, env);
        case Reverse(input) => answer := ReverseBody(input, env);
        case Review(input) => answer := ReviewBody(input, env);
        case PlaceLien(input) => answer := PlaceLienBody(input, env);
        case ReleaseLien(input) => answer := ReleaseLienBody(input);
        case SetStatus(input) => answer := SetStatusBody(input);
        case CreateAccount(currency) => answer := CreateAccountBody(currency, env);
      }
    }

    /** One transaction: it answers and leaves the tables exactly as the step says; an error,
        of the body or of the commit, leaves them as they were, and the invariant survives. */
    method WithTx(op: Op, env: Env, commits: bool) returns (answer: Answer)
      requires Inv(Tables()) && Admissible(Tables(), op, env)
      modifies this
      ensures answer == Committing(AnswerOf(Exec(old(Tables()), op, env).reply), commits)
      ensures Tables() == if commits then Step(old(Tables()), op, env) else old(Tables())
      ensures answer.Refused? ==> Tables() == old(Tables())
      ensures Inv(Tables())
    {
      ghost var before := Tables();
      var saved := Tables();
      var committed := false;
      answer := Body(op, env);
      if answer.Returned? {
        if commits {
          committed := true;
        } else {
          answer := Refused(CommitFailed);
        }
      }
      if !committed { Restore(saved); }
      StepKeepsInv(before, op, env);
    }

    // ---- an external outbound transfer, end to end ---------------------------------------------

    /** Records the intent and its hold, asks the provider only if this call created it, and
        completes it with the answer. A provider that does not know, or a completion that
        does not commit, leaves the money held. */
    method ExternalOutboundTransfer(intent: RecordInput, reply: Provider.ProviderReply, begin: Env, begins: bool,
                                    finish: Env, finishes: bool) returns (answer: Answer, asked: bool)
      requires Inv(Tables()) && Admissible(Tables(), Record(intent), begin)
      requires FreshIds(Step(Tables(), Record(intent), begin), finish)
      requires OutboundIntent(intent)
      modifies this
      ensures Inv(Tables())
      ensures asked
        <==> begins && AnswerOf(Exec(old(Tables()), Record(intent), begin).reply) == Returned(begin.transfer, true)
      ensures asked && finishes ==>
        Tables() == Step(Step(old(Tables()), Record(intent), begin), CompletionOf(intent, reply, begin), finish)
      ensures asked && !finishes ==> Tables() == Step(old(Tables()), Record(intent), begin)
      ensures !asked ==> Tables() == if begins then Step(old(Tables()), Record(intent), begin) else old(Tables())
      ensures asked && (Provider.DoesNotKnow(reply) || !finishes) ==>
        StillHeld(Tables(), begin.transfer) && journals == old(journals)
    {
      ghost var before := Tables();
      IntentAnswers(before, intent, begin);
      answer := WithTx(Record(intent), begin, begins);
      if answer.Refused? || !answer.created { return answer, false; }
      ghost var held := Tables();
      IntentPends(before, held, intent, begin);
      answer := WithTx(CompletionOf(intent, reply, begin), finish, finishes);
      asked := true;
      if Provider.DoesNotKnow(reply) && finishes {
        Provider.NoAnswerWaits(held, begin.transfer, intent, reply, finish, Tables());
      }
    }
  }

  function Committing(answer: Answer, commits: bool): Answer {
    if answer.Returned? && !commits then Refused(CommitFailed) else answer
  }

  // The event a review reserves, linked to it.
  function ReviewEvent(input: ReviewInput, id: TransferId): Option<EventWrite> {
    if input.reserveEvent then
      Some(EventWrite(ReviewEventKey(input), ProviderEvent(Some(id), input.fingerprint, input.reference)))
    else None
  }

  // What the service records before it calls the provider.
  predicate OutboundIntent(intent: RecordInput) {
    && intent.direction == Outbound && intent.reversalOf.None?
    && intent.status == Pending && intent.providerStatus == Pending
    && intent.fingerprint != NoFingerprint && intent.event.None? && intent.rejectInsufficient && intent.requireAvailable
  }

  function CompletionOf(intent: RecordInput, reply: Provider.ProviderReply, begin: Env): Op {
    Complete(begin.transfer,
      Provider.CompletionInput(intent, Provider.Initiated(reply, intent.provider, intent.reference)))
  }

  // Pending, its hold still active.
  predicate StillHeld(db: DB, id: TransferId) {
    id in db.transfers && db.transfers[id].status == Pending && ActiveHold(db, id)
  }

  // A recorded intent is a replay or this very transfer.
  lemma IntentAnswers(db: DB, intent: RecordInput, env: Env)
    requires Inv(db) && OutboundIntent(intent)
    ensures var reply := Exec(db, Record(intent), env).reply;
            reply.Done? ==> (reply.created <==> AnswerOf(reply) == Returned(env.transfer, true))
  {
    var reply := Exec(db, Record(intent), env).reply;
    if reply.Done? && reply.created {
      CreatedIsFresh(db, intent, env);
    }
  }

  // A created intent is pending under its hold.
  lemma IntentPends(db: DB, held: DB, intent: RecordInput, env: Env)
    requires Inv(db) && OutboundIntent(intent) && held == Step(db, Record(intent), env)
    requires Exec(db, Record(intent), env).reply.Done? && Exec(db, Record(intent), env).reply.created
    ensures Provider.PendingIntent(held, env.transfer, intent) && held.journals == db.journals
    ensures StillHeld(held, env.transfer)
  {
    CreatedIsFresh(db, intent, env);
  }

  // A pending intent stays one until it is final, whatever runs meanwhile.
  lemma IntentOutlasts(held: DB, id: TransferId, intent: RecordInput, calls: seq<Call>, later: DB)
    requires Inv(held) && Provider.PendingIntent(held, id, intent)
    requires AdmissibleRun(held, calls) && later == Run(held, calls)
    ensures Inv(later) && id in later.transfers
    ensures Final(later.transfers[id]) || Provider.PendingIntent(later, id, intent)
  {
    RunEvolves(held, calls);
    assert RowEvolves(held, later, id);
  }

  lemma FinalCompletes(db: DB, id: TransferId, input: RecordInput, env: Env)
    requires id in db.transfers && Final(db.transfers[id])
    ensures Step(db, Complete(id, input), env) == db
  {
  }

  /** The completion may come at any later time, after any other requests: if one of them made
      the transfer final it writes nothing, and if the provider does not know it moves nothing. */
  lemma LateCompletion(held: DB, intent: RecordInput, begin: Env, calls: seq<Call>, later: DB,
                       reply: Provider.ProviderReply,
                       finish: Env, next: DB)
    requires Inv(held) && Provider.PendingIntent(held, begin.transfer, intent)
    requires AdmissibleRun(held, calls) && later == Run(held, calls)
    requires next == Step(later, CompletionOf(intent, reply, begin), finish)
    ensures begin.transfer in later.transfers
    ensures Final(later.transfers[begin.transfer]) ==> next == later
    ensures !Final(later.transfers[begin.transfer]) && Provider.DoesNotKnow(reply) ==>
      Provider.MoneyWaits(later, next, begin.transfer)
  {
    IntentOutlasts(held, begin.transfer, intent, calls, later);
    if Final(later.transfers[begin.transfer]) {
      FinalCompletes(later, begin.transfer,
        Provider.CompletionInput(intent, Provider.Initiated(reply, intent.provider, intent.reference)), finish);
    } else if Provider.DoesNotKnow(reply) {
      Provider.NoAnswerWaits(later, begin.transfer, intent, reply, finish, next);
    }
  }

  // Retagging the row just recorded is what finishing the reversal writes.
  lemma RetagFinishes(db: DB, after: DB, record: RecordInput, input: ReverseInput, env: Env)
    requires Inv(db) && !(input.transfer in db.reversals && db.reversals[input.transfer] in db.transfers)
    requires record.reversalOf == Some(input.transfer) && record.direction != Reversal
    requires RecordTransfer(db, record, env).reply.Done?
    requires after == Apply(db, RecordTransfer(db, record, env).reply.change)
    ensures var recorded := RecordTransfer(db, record, env).reply;
            var finished := FinishReversal(db, recorded, input, env);
            if recorded.id in after.transfers && after.transfers[recorded.id].reversalOf == Some(input.transfer) then
              var row := after.transfers[recorded.id].(direction := Reversal, updatedAt := env.now);
              && finished.Done? && finished.id == recorded.id && finished.created == recorded.created
              && Apply(db, finished.change)
                 == after.(transfers := after.transfers[recorded.id := row],
                   reversals := MarkReversal(after.reversals, recorded.id, row))
            else finished == Fail(Conflict)
  {
    assert input.transfer in db.reversals ==> ReversalOk(db, input.transfer);
    var recorded := RecordTransfer(db, record, env).reply;
    ReversalRecords(db, record, env, input.transfer);
    ReplyNamesRow(db, record, env);
    if recorded.id in after.transfers && after.transfers[recorded.id].reversalOf == Some(input.transfer) {
      RecordThenRetag(db, recorded.change, env.now);
    }
  }

  // The row a record answers with is the one its statements leave behind.
  lemma ReplyNamesRow(db: DB, input: RecordInput, env: Env)
    requires RecordTransfer(db, input, env).reply.Done?
    ensures var reply := RecordTransfer(db, input, env).reply;
            RowAfter(db, reply.change, reply.id) == Find(Apply(db, reply.change).transfers, reply.id)
  {
    var reply := RecordTransfer(db, input, env).reply;
    RecordKind(db, input, env);
    RecordIds(db, input, env);
  }

  lemma RecordIds(db: DB, input: RecordInput, env: Env)
    ensures NamesItsRow(RecordTransfer(db, input, env).reply)
  {
    FreshIdsOf(db, input, env);
    if env.pendingPick.Some? && PendingMatch(db, env.pendingPick.value, input) {
      SettleIds(db, env.pendingPick.value, input, env);
    }
  }

  predicate NamesItsRow(reply: Reply) {
    reply.Done? && (reply.change.Insert? || reply.change.Advance?) ==> reply.change.id == reply.id
  }

  lemma FreshIdsOf(db: DB, input: RecordInput, env: Env)
    ensures NamesItsRow(RecordFresh(db, input, env).reply)
  {
  }

  lemma SettleIds(db: DB, id: TransferId, input: RecordInput, env: Env)
    requires id in db.transfers
    ensures NamesItsRow(Settle(db, id, input, env).reply)
  {
  }

  // Inserting a reversal outright is inserting it under its first direction and retagging it.
  lemma RecordThenRetag(db: DB, change: Change, now: nat)
    requires change.Insert? && change.row.direction != Reversal && change.row.reversalOf.Some?
    requires change.hold == KeepHold
    ensures var row := change.row.(direction := Reversal, updatedAt := now);
            var after := Apply(db, change);
            Apply(db, AsReversal(change, change.id, change.row.reversalOf.value, now))
            == after.(transfers := after.transfers[change.id := row],
              reversals := MarkReversal(after.reversals, change.id, row))
  {
    var row := change.row.(direction := Reversal, updatedAt := now);
    assert db.transfers[change.id := change.row][change.id := row] == db.transfers[change.id := row];
  }

  // Why a final outcome is turned down, if it is.
  function OutcomeError(db: DB, id: TransferId, row: Transfer, input: RecordInput, held: bool): Option<Error>
    requires input.account in db.accounts && input.clearing in db.accounts
  {
    var error :=
      if row.status == Failed then None
      else SettleError(db, id, input, db.accounts[input.account], db.accounts[input.clearing], held);
    if error.None? && !ValidProviderStatus(row.providerStatus) then Some(CheckViolation) else error
  }

  function OutcomeChange(db: DB, id: TransferId, row: Transfer, input: RecordInput, held: bool,
                         journal: JournalId): Change {
    Advance(id, row, OutcomeEntry(id, row, input, journal), OutcomeHold(db, id, row, held), Reserve(input, id))
  }

  function OutcomeEntry(id: TransferId, row: Transfer, input: RecordInput, journal: JournalId): Option<Entry> {
    if row.status == Succeeded then Some(Entry(journal, JournalFor(input, id))) else None
  }

  // What a final outcome does to the transfer's hold, where there is one to free.
  function OutcomeHold(db: DB, id: TransferId, row: Transfer, held: bool): HoldAction {
    if !held then KeepHold
    else if row.status == Succeeded then ConsumeHold
    else if ActiveHold(db, id) then ReleaseHold
    else KeepHold
  }

  function FreshEntry(input: RecordInput, row: Transfer, env: Env): Option<Entry> {
    if row.status == Succeeded then Some(Entry(env.journal, JournalFor(input, env.transfer))) else None
  }

  function FreshHold(input: RecordInput, row: Transfer): HoldAction {
    if row.status == Pending && CustomerInitiatedOutbound(input) then CreateHold else KeepHold
  }
}
