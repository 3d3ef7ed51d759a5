/** Recording a request: exactly when it inserts a transfer, and what that leaves behind. */
module Recording {
  import opened Types
  import opened Policy
  import opened Ledger
  import opened Transfers
  import opened Steps
  import opened Invariant
  import opened Effects

  // No transfer of the same provider, reference and direction was found for a final request.
  predicate NoneFound(db: DB, input: RecordInput, env: Env) {
    input.reference != Blank && input.status != Pending ==>
      && (env.pendingPick.Some? ==> !SameReference(db, env.pendingPick.value, input, true))
      && (env.settledPick.Some? ==> !SameReference(db, env.settledPick.value, input, false))
  }

  predicate SameReference(db: DB, id: TransferId, input: RecordInput, pending: bool) {
    && id in db.transfers
    && var row := db.transfers[id];
       && row.provider == input.provider && row.reference == input.reference && row.direction == input.direction
       && (row.status == Pending) == pending
  }

  // The named account may not be overdrawn, or the request itself insists, and the money is not there.
  predicate Short(db: DB, input: RecordInput) {
    && input.direction == Outbound && input.account in db.accounts && input.account in db.balances
    && db.balances[input.account].available < input.amount
    && (input.requireAvailable
        || (db.accounts[input.account].kind == Customer && !db.accounts[input.account].allowNegative))
  }

  function RecordedStatus(db: DB, input: RecordInput): Status {
    if Short(db, input) then Failed
    else if Carried(input) == ProviderUnknown then Pending
    else input.status
  }

  /** What it takes for a request to be recorded as a new transfer. */
  predicate Recordable(db: DB, input: RecordInput, env: Env) {
    && input.key !in db.byKey && EventUnseen(db, input) && NoneFound(db, input, env)
    && Allowed(db, input.account, input.clearing, input.direction)
    && input.amount > 0
    && (Short(db, input) ==> !input.rejectInsufficient)
    && (KnownWord(Carried(input)) || Carried(input) == ProviderUnknown)
    && KnownWord(RecordedStatus(db, input))
  }

  // The row it gets.
  function RecordedRow(db: DB, input: RecordInput, env: Env): Transfer {
    var status := RecordedStatus(db, input);
    Transfer(
      input.account,
      input.direction,
      status,
      Carried(input),
      if status == Succeeded then Posted else if status == Failed then NoPosting else LedgerPending,
      if Carried(input) == ProviderUnknown then ManualReview
      else if status == Succeeded then Matched
      else if status == Failed then NoAction
      else ReconciliationPending,
      input.amount,
      input.currency,
      input.key,
      input.provider,
      input.reference,
      input.event,
      if status == Succeeded then Some(env.journal) else None,
      None,
      FingerprintOf(input),
      if Short(db, input) then Word(InsufficientFunds) else input.failure,
      env.now,
      env.now)
  }

  // ---- exactly when -----------------------------------------------------------------

  // A request that names no reversal and reverses nothing.
  predicate Ordinary(input: RecordInput) {
    input.direction != Reversal && input.reversalOf.None?
  }

  lemma RowIsRecorded(db: DB, input: RecordInput, env: Env)
    requires Ordinary(input) && input.account in db.accounts && input.account in db.balances
    ensures FreshRow(input, db.accounts[input.account], db.balances[input.account], env) == RecordedRow(db, input, env)
    ensures Underfunded(input, db.accounts[input.account], db.balances[input.account]) <==> Short(db, input)
  {
  }

  // What a recordable request inserts.
  predicate Inserts(db: DB, reply: Reply, input: RecordInput, env: Env) {
    && reply.Done? && reply.id == env.transfer && reply.created
    && reply.change.Insert? && reply.change.id == env.transfer && reply.change.row == RecordedRow(db, input, env)
    && reply.change.entry == (if RecordedStatus(db, input) == Succeeded
                              then Some(Entry(env.journal, JournalFor(input, env.transfer))) else None)
    && reply.change.hold == (if RecordedStatus(db, input) == Pending && input.direction == Outbound
                             then CreateHold else KeepHold)
    && reply.change.event == Reserve(input, env.transfer)
  }

  lemma LockedInserts(db: DB, input: RecordInput, env: Env)
    requires Ordinary(input) && AccountsOk(db) && EventUnseen(db, input)
    requires input.account in db.accounts && input.clearing in db.accounts && input.account != input.clearing
    ensures var reply := RecordLocked(db, input, env);
            var fine := && Allowed(db, input.account, input.clearing, input.direction)
                        && input.amount > 0 && (Short(db, input) ==> !input.rejectInsufficient)
                        && (KnownWord(Carried(input)) || Carried(input) == ProviderUnknown)
                        && KnownWord(RecordedStatus(db, input));
            if fine then Inserts(db, reply, input, env) else reply.Fail?
  {
    RowIsRecorded(db, input, env);
    ControlsAllowIff(db, input);
  }

  lemma FreshInserts(db: DB, input: RecordInput, env: Env)
    requires Ordinary(input) && AccountsOk(db) && EventUnseen(db, input)
    requires input.key !in db.byKey && NoneFound(db, input, env)
    ensures var reply := RecordFresh(db, input, env).reply;
            if Recordable(db, input, env) then Inserts(db, reply, input, env) else reply.Fail?
  {
    if input.account in db.accounts && input.clearing in db.accounts && input.account != input.clearing {
      LockedInserts(db, input, env);
    }
  }

  lemma UnseenIsFresh(db: DB, input: RecordInput, env: Env)
    requires input.key !in db.byKey && EventUnseen(db, input) && NoneFound(db, input, env)
    ensures RecordTransfer(db, input, env).reply == RecordFresh(db, input, env).reply
  {
  }

  lemma SeenInsertsNothing(db: DB, input: RecordInput, env: Env)
    requires KeysOk(db) && !(input.key !in db.byKey && EventUnseen(db, input) && NoneFound(db, input, env))
    ensures var reply := RecordTransfer(db, input, env).reply; reply.Done? ==> !reply.change.Insert?
  {
    assert input.key in db.byKey ==> KeyOk(db, input.key);
  }

  /** A request inserts a new transfer if and only if its key and its event are unused, no
      transfer of its reference was found, its two accounts differ, exist and are in use, the
      named one is not a customer under post-no-debit paying out, the amount is positive, its
      statuses are known words, and it is not short of money while insisting on it. */
  lemma RecordsIff(db: DB, input: RecordInput, env: Env)
    requires AccountsOk(db) && KeysOk(db) && Ordinary(input)
    ensures Committed(db, Record(input), env).Insert? <==> Recordable(db, input, env)
    ensures Recordable(db, input, env) ==> Inserts(db, Exec(db, Record(input), env).reply, input, env)
  {
    if input.key !in db.byKey && EventUnseen(db, input) && NoneFound(db, input, env) {
      UnseenIsFresh(db, input, env);
      FreshInserts(db, input, env);
    } else {
      SeenInsertsNothing(db, input, env);
    }
  }

  /** A request that is short of money and insists on it is told so, when nothing else is amiss. */
  lemma InsufficientIff(db: DB, input: RecordInput, env: Env)
    requires AccountsOk(db) && Ordinary(input) && EventUnseen(db, input)
    requires input.key !in db.byKey && NoneFound(db, input, env)
    ensures Exec(db, Record(input), env).reply == Fail(Insufficient)
       <==> Allowed(db, input.account, input.clearing, input.direction)
            && Short(db, input) && input.rejectInsufficient
  {
    UnseenIsFresh(db, input, env);
    if input.account in db.accounts && input.clearing in db.accounts && input.account != input.clearing {
      RowIsRecorded(db, input, env);
      ControlsAllowIff(db, input);
    }
  }

  // ---- what it leaves behind -----------------------------------------------------------

  // The money side of a recorded request, by its status.
  predicate RecordedMoney(db: DB, next: DB, input: RecordInput, env: Env) {
    var status := RecordedStatus(db, input);
    if status == Succeeded then
      && next.journals == db.journals[env.journal :=
           Booked(env.transfer, input.direction, Payer(input), Payee(input), input.amount, input.currency)]
      && Pays(db, next, Payer(input), Payee(input), input.amount, env.journal, false)
      && next.holds == db.holds
    else if status == Pending && input.direction == Outbound then
      && next.journals == db.journals
      && Frees(db, next, input.account, -input.amount)
      && next.holds == db.holds[env.transfer :=
           Hold(input.account, input.amount, input.currency, Active, input.reference)]
    else MoneyStill(db, next)
  }

  lemma InsertedMoney(db: DB, input: RecordInput, env: Env, change: Change, next: DB)
    requires AccountsOk(db) && Ordinary(input) && next == Apply(db, change) && Recordable(db, input, env)
    requires change == Insert(env.transfer, RecordedRow(db, input, env),
      if RecordedStatus(db, input) == Succeeded
      then Some(Entry(env.journal, JournalFor(input, env.transfer))) else None,
      if RecordedStatus(db, input) == Pending && input.direction == Outbound then CreateHold else KeepHold,
      Reserve(input, env.transfer))
    ensures RecordedMoney(db, next, input, env)
  {
    if RecordedStatus(db, input) == Succeeded {
      JournalIsBooked(input, env.transfer);
      BookingPays(db, next, env.transfer, input.direction, Payer(input), Payee(input), input.amount, input.currency,
                  env.journal, false);
    }
  }

  /** A recorded request leaves exactly this: its row under its key, its event linked to it,
      and by its status a journal that pays, a hold, or no trace in the money. */
  lemma RecordLeaves(db: DB, input: RecordInput, env: Env, next: DB)
    requires AccountsOk(db) && KeysOk(db) && Ordinary(input) && Recordable(db, input, env)
    requires next == Step(db, Record(input), env)
    ensures next.transfers == db.transfers[env.transfer := RecordedRow(db, input, env)]
    ensures next.byKey == db.byKey[input.key := env.transfer]
    ensures next.events == EventsWith(db, input, env.transfer)
    ensures next.accounts == db.accounts && next.liens == db.liens && next.reversals == db.reversals
    ensures RecordedMoney(db, next, input, env)
  {
    RecordsIff(db, input, env);
    InsertedMoney(db, input, env, Committed(db, Record(input), env), next);
  }

  /** So an account under post-no-debit still takes credits: an inbound request that succeeded
      raises its ledger and its available balance by the amount. */
  lemma PostNoDebitTakesCredit(db: DB, input: RecordInput, env: Env, next: DB)
    requires AccountsOk(db) && KeysOk(db) && next == Step(db, Record(input), env)
    requires input.direction == Inbound && input.reversalOf.None? && input.status == Succeeded
    requires input.providerStatus == NoStatus || input.providerStatus == Succeeded
    requires input.key !in db.byKey && EventUnseen(db, input) && NoneFound(db, input, env) && input.amount > 0
    requires input.account in db.accounts && db.accounts[input.account].kind == Customer
    requires db.accounts[input.account].status == PostNoDebit
    requires input.clearing in db.accounts && db.accounts[input.clearing].kind == Internal
    ensures input.account in db.balances && input.account in next.balances
    ensures next.balances[input.account].ledger == db.balances[input.account].ledger + input.amount
    ensures next.balances[input.account].available == db.balances[input.account].available + input.amount
  {
    assert Recordable(db, input, env);
    RecordLeaves(db, input, env, next);
  }
}
