/** The transfer transactions: what each one locks, and what it decides to write. */
module Transfers {
  import opened Types
  import opened Policy
  import opened Ledger

  // ---- locks -------------------------------------------------------------

  function RowPair(a: AccountId): seq<Resource> {
    [AccountRow(a), BalanceRow(a)]
  }

  // Both accounts and their balances, in account order.
  function AccountLocks(a: AccountId, b: AccountId): seq<Resource> {
    if a < b then RowPair(a) + RowPair(b) else RowPair(b) + RowPair(a)
  }

  function MissingAccount(db: DB, a: AccountId): Option<Error> {
    if a !in db.accounts then Some(NotFound)
    else if a !in db.balances then Some(DataIntegrity)
    else None
  }

  // The error of locking two accounts, or None when both rows are there.
  function MissingPair(db: DB, a: AccountId, b: AccountId): Option<Error> {
    if a == b then Some(InvalidRequest)
    else
      var (first, second) := if a < b then (a, b) else (b, a);
      if MissingAccount(db, first).Some? then MissingAccount(db, first) else MissingAccount(db, second)
  }

  function EventLocks(input: RecordInput): seq<Resource> {
    if input.event.Some? then [EventLock(EventKey(input.provider, input.event.value))] else []
  }

  predicate ByReference(input: RecordInput) {
    input.reference != Blank && input.status != Pending
  }

  function ReplayLocks(input: RecordInput): seq<Resource> {
    [KeyLock(input.key)] + EventLocks(input)
    + (if ByReference(input) then [ReferenceLock(input.provider, input.reference, input.direction)] else [])
  }

  function Locked(locks: seq<Resource>, outcome: Outcome): Outcome {
    outcome.(locks := locks + outcome.locks)
  }

  // ---- replays -----------------------------------------------------------

  /** The one other account of a transfer's journal. */
  function Counterparty(db: DB, row: Transfer): Option<AccountId> {
    if row.journal.Some? && row.journal.value in db.journals then
      var others := Others(db.journals[row.journal.value].postings, row.account);
      if |others| == 1 then Some(others[0].account) else None
    else None
  }

  // SELECT ... WHERE account_id <> account
  function Others(postings: seq<Posting>, account: AccountId): seq<Posting> {
    if postings == [] then []
    else (if postings[0].account != account then [postings[0]] else []) + Others(postings[1..], account)
  }

  predicate SameFields(row: Transfer, input: RecordInput) {
    && row.provider == input.provider
    && row.reference == input.reference
    && row.direction == input.direction
    && row.account == input.account
    && row.amount == input.amount
    && row.currency == input.currency
    && row.reversalOf == input.reversalOf
  }

  function ReplayOf(id: TransferId): Reply {
    Done(NoChange, id, false)
  }

  // Same fields and the same counterparty.
  function ReplayByFields(db: DB, id: TransferId, row: Transfer, input: RecordInput): Reply {
    if !SameFields(row, input) || row.journal.None? then Fail(Conflict)
    else match Counterparty(db, row)
      case None => Fail(DataIntegrity)
      case Some(other) => if other == input.clearing then ReplayOf(id) else Fail(Conflict)
  }

  function ReplayByKey(db: DB, id: TransferId, row: Transfer, input: RecordInput): Reply {
    if row.fingerprint != NoFingerprint then
      if row.fingerprint == FingerprintOf(input) then ReplayOf(id) else Fail(Conflict)
    else ReplayByFields(db, id, row, input)
  }

  // The transfer an event is linked to, if there is one.
  function LinkedTransfer(db: DB, key: EventKey): Option<TransferId> {
    if key in db.events && db.events[key].transfer.Some? && db.events[key].transfer.value in db.transfers
    then db.events[key].transfer
    else None
  }

  function ReplayByEvent(db: DB, key: EventKey, fingerprint: Fingerprint): Reply {
    if key in db.events && db.events[key].fingerprint != NoFingerprint && db.events[key].fingerprint != fingerprint then
      Fail(Conflict)
    else match LinkedTransfer(db, key)
      case None => Fail(Conflict)
      case Some(id) => ReplayOf(id)
  }

  predicate EventTaken(db: DB, input: RecordInput) {
    input.event.Some? && EventKey(input.provider, input.event.value) in db.events
  }

  function Reserve(input: RecordInput, id: TransferId): Option<EventWrite> {
    if input.event.Some? then
      Some(EventWrite(EventKey(input.provider, input.event.value),
                      ProviderEvent(Some(id), FingerprintOf(input), input.reference)))
    else None
  }

  predicate MatchesReference(db: DB, id: TransferId, input: RecordInput) {
    && id in db.transfers
    && db.transfers[id].provider == input.provider
    && db.transfers[id].reference == input.reference
    && db.transfers[id].direction == input.direction
  }

  predicate PendingMatch(db: DB, id: TransferId, input: RecordInput) {
    MatchesReference(db, id, input) && db.transfers[id].status == Pending
  }

  predicate SettledMatch(db: DB, id: TransferId, input: RecordInput) {
    MatchesReference(db, id, input) && db.transfers[id].status != Pending
  }

  // ---- recordTransfer ----------------------------------------------------

  function RecordTransfer(db: DB, input: RecordInput, env: Env): Outcome {
    Locked(ReplayLocks(input),
      if input.key in db.byKey && db.byKey[input.key] in db.transfers then
        var id := db.byKey[input.key];
        Outcome([TransferRow(id)], ReplayByKey(db, id, db.transfers[id], input))
      else if input.event.Some? && LinkedTransfer(db, EventKey(input.provider, input.event.value)).Some? then
        Outcome([], ReplayByEvent(db, EventKey(input.provider, input.event.value), FingerprintOf(input)))
      else if ByReference(input) then RecordByReference(db, input, env)
      else RecordFresh(db, input, env))
  }

  function RecordByReference(db: DB, input: RecordInput, env: Env): Outcome {
    match env.pendingPick
    case None => RecordUnlessSettled(db, input, env)
    case Some(pick) =>
      Locked([TransferRow(pick)],
        if PendingMatch(db, pick, input) then Settle(db, pick, input, env)
        else RecordUnlessSettled(db, input, env))
  }

  function RecordUnlessSettled(db: DB, input: RecordInput, env: Env): Outcome {
    match env.settledPick
    case None => RecordFresh(db, input, env)
    case Some(pick) =>
      Locked([TransferRow(pick)],
        if SettledMatch(db, pick, input) then Outcome([], ReplayByFields(db, pick, db.transfers[pick], input))
        else RecordFresh(db, input, env))
  }

  predicate Underfunded(input: RecordInput, account: Account, balance: Balance) {
    && CustomerInitiatedOutbound(input)
    && (!CanUseAvailable(account, balance.available, input.amount)
        || (input.requireAvailable && balance.available < input.amount))
  }

  // The row a fresh transfer gets; an underfunded one is recorded as failed.
  function FreshRow(input: RecordInput, account: Account, balance: Balance, env: Env): Transfer {
    var providerStatus := ProviderStatusOf(input);
    var underfunded := Underfunded(input, account, balance);
    var status := if underfunded then Failed else EffectiveStatus(input);
    var deficit := status == Succeeded && CreatesReversalDeficit(account, balance, input);
    Transfer(
      input.account,
      input.direction,
      status,
      providerStatus,
      if deficit then ReversalDeficit else LedgerStatusOf(status),
      if deficit || providerStatus == ProviderUnknown then ManualReview else ReconciliationOf(status),
      input.amount,
      input.currency,
      input.key,
      input.provider,
      input.reference,
      input.event,
      if status == Succeeded then Some(env.journal) else None,
      input.reversalOf,
      FingerprintOf(input),
      if underfunded then Word(InsufficientFunds) else input.failure,
      env.now,
      env.now)
  }

  const InsufficientFunds: nat := 1
  const UnknownAtProvider: nat := 2
  const FailedAtProvider: nat := 3

  function RecordFresh(db: DB, input: RecordInput, env: Env): Outcome {
    var missing := MissingPair(db, input.account, input.clearing);
    if input.account == input.clearing then Outcome([], Fail(InvalidRequest))
    else Outcome(AccountLocks(input.account, input.clearing),
      if missing.Some? then Fail(missing.value)
      else RecordLocked(db, input, env))
  }

  function RecordLocked(db: DB, input: RecordInput, env: Env): Reply
    requires input.account in db.accounts && input.account in db.balances
    requires input.clearing in db.accounts
  {
    var account, balance := db.accounts[input.account], db.balances[input.account];
    var row := FreshRow(input, account, balance, env);
    if !ControlsAllow(input, account, db.accounts[input.clearing]) then Fail(InvalidRequest)
    else if Underfunded(input, account, balance) && input.rejectInsufficient then Fail(Insufficient)
    else if EventTaken(db, input) then
      ReplayByEvent(db, EventKey(input.provider, input.event.value), FingerprintOf(input))
    else if input.amount <= 0 || !ValidStatus(row.status) || !ValidProviderStatus(row.providerStatus) then
      Fail(CheckViolation)
    else
      Done(
        Insert(env.transfer, row,
          if row.status == Succeeded then Some(Entry(env.journal, JournalFor(input, env.transfer))) else None,
          if row.status == Pending && CustomerInitiatedOutbound(input) then CreateHold else KeepHold,
          Reserve(input, env.transfer)),
        env.transfer, true)
  }

  // ---- settling a pending transfer ----------------------------------------

  predicate SameMovement(row: Transfer, input: RecordInput) {
    && row.account == input.account
    && row.amount == input.amount
    && row.currency == input.currency
  }

  predicate HoldsFunds(row: Transfer) {
    row.direction == Outbound && row.reversalOf.None?
  }

  // The row after a provider outcome. `reference` is what the row ends up with.
  function OutcomeRow(row: Transfer, input: RecordInput, status: Status, account: Account, balance: Balance,
                      reference: Text, env: Env): Transfer
  {
    var providerStatus := ProviderStatusOf(input);
    var deficit := status == Succeeded && CreatesReversalDeficit(account, balance, input);
    row.(
      status := status,
      providerStatus := providerStatus,
      ledgerStatus := if deficit then ReversalDeficit else LedgerStatusOf(status),
      reconciliation :=
        if deficit || providerStatus == ProviderUnknown then ManualReview else ReconciliationOf(status),
      reference := reference,
      event := if input.event.Some? then input.event else row.event,
      journal := if status == Succeeded then Some(env.journal) else None,
      failure := input.failure,
      updatedAt := env.now)
  }

  // Succeeding needs the controls to allow it, and an active hold where one guards the funds.
  function SettleError(db: DB, id: TransferId, input: RecordInput, account: Account, clearing: Account, consumes: bool)
    : Option<Error>
  {
    if !ControlsAllow(input, account, clearing) then Some(InvalidRequest)
    else if CustomerInitiatedOutbound(input) && !account.allowNegative && !ActiveHold(db, id) then Some(NotFound)
    else if consumes && !ActiveHold(db, id) then Some(NotFound)
    else None
  }

  function Settle(db: DB, id: TransferId, input: RecordInput, env: Env): Outcome
    requires id in db.transfers
  {
    var row := db.transfers[id];
    var missing := MissingPair(db, row.account, input.clearing);
    if row.direction != input.direction || !SameMovement(row, input) then Outcome([], Fail(Conflict))
    else if row.account == input.clearing then Outcome([], Fail(InvalidRequest))
    else Outcome(AccountLocks(row.account, input.clearing) + EventLocks(input),
      if missing.Some? then Fail(missing.value)
      else SettleLocked(db, id, input, env))
  }

  function SettleLocked(db: DB, id: TransferId, input: RecordInput, env: Env): Reply
    requires id in db.transfers
    requires db.transfers[id].account in db.accounts && db.transfers[id].account in db.balances
    requires input.clearing in db.accounts
  {
    var row := db.transfers[id];
    var account, balance := db.accounts[row.account], db.balances[row.account];
    var status := EffectiveStatus(input);
    var after := OutcomeRow(row, input, status, account, balance, row.reference, env);
    if EventTaken(db, input) then
      ReplayByEvent(db, EventKey(input.provider, input.event.value), FingerprintOf(input))
    else match status
      case Succeeded =>
        var error := SettleError(db, id, input, account, db.accounts[input.clearing], HoldsFunds(row));
        if error.Some? then Fail(error.value)
        else if !ValidProviderStatus(after.providerStatus) then Fail(CheckViolation)
        else
          Done(
            Advance(id, after, Some(Entry(env.journal, JournalFor(input, id))),
                    if HoldsFunds(row) then ConsumeHold else KeepHold, Reserve(input, id)),
            id, false)
      case Failed =>
        if !ValidProviderStatus(after.providerStatus) then Fail(CheckViolation)
        else
          Done(
            Advance(id, after, None,
                    if HoldsFunds(row) && ActiveHold(db, id) then ReleaseHold else KeepHold, Reserve(input, id)),
            id, false)
      case _ => Fail(InvalidRequest)
  }

  // ---- completion of an external outbound transfer ------------------------

  // The pair (status, provider status) of a completion, or None when either is not a known word.
  function CompletionStatuses(input: RecordInput): Option<(Status, Status)> {
    var providerStatus := ProviderStatusOf(input);
    var status := if EffectiveStatus(input) == NoStatus then providerStatus else EffectiveStatus(input);
    if ValidStatus(status) && ValidProviderStatus(providerStatus) then Some((status, providerStatus)) else None
  }

  function CompleteOutbound(db: DB, id: TransferId, input: RecordInput, env: Env): Outcome {
    Locked(EventLocks(input) + [TransferRow(id)],
      if id !in db.transfers then Outcome([], Fail(NotFound))
      else
        var row := db.transfers[id];
        if row.direction != Outbound || !SameMovement(row, input) || row.provider != input.provider then
          Outcome([], Fail(Conflict))
        else if input.fingerprint != NoFingerprint && row.fingerprint != NoFingerprint
                && input.fingerprint != row.fingerprint then
          Outcome([], Fail(Conflict))
        else if row.status != Pending then Outcome([], ReplayOf(id))
        else if row.account == input.clearing then Outcome([], Fail(InvalidRequest))
        else
          var missing := MissingPair(db, row.account, input.clearing);
          Outcome(AccountLocks(row.account, input.clearing),
            if missing.Some? then Fail(missing.value)
            else CompleteLocked(db, id, input, env)))
  }

  function CompleteLocked(db: DB, id: TransferId, input: RecordInput, env: Env): Reply
    requires id in db.transfers
    requires db.transfers[id].account in db.accounts && db.transfers[id].account in db.balances
    requires input.clearing in db.accounts
  {
    var row := db.transfers[id];
    var account, balance := db.accounts[row.account], db.balances[row.account];
    if EventTaken(db, input) then
      ReplayByEvent(db, EventKey(input.provider, input.event.value), FingerprintOf(input))
    else match CompletionStatuses(input)
      case None => Fail(InvalidRequest)
      case Some((status, _)) =>
        var reference := if input.reference != Blank then input.reference else row.reference;
        var after := OutcomeRow(row, input, status, account, balance, reference, env);
        if status == Succeeded then
          var error := SettleError(db, id, input, account, db.accounts[input.clearing], true);
          if error.Some? then Fail(error.value)
          else
            Done(Advance(id, after, Some(Entry(env.journal, JournalFor(input, id))), ConsumeHold, Reserve(input, id)),
                 id, false)
        else if status == Failed then
          Done(Advance(id, after, None, if ActiveHold(db, id) then ReleaseHold else KeepHold, Reserve(input, id)),
               id, false)
        else if ActiveHold(db, id) then
          Done(Advance(id, after, None, KeepHold, Reserve(input, id)), id, false)
        else Fail(NotFound)
  }

  // ---- requery ------------------------------------------------------------

  // The request with the row's provider reference where it carries none.
  function WithReference(row: Transfer, input: RecordInput): RecordInput {
    input.(reference := if input.reference != Blank then input.reference else row.reference)
  }

  function RequeryTransfer(db: DB, id: TransferId, input: RecordInput, env: Env): Outcome {
    Locked([TransferRow(id)],
      if id !in db.transfers then Outcome([], Fail(NotFound))
      else
        var row := db.transfers[id];
        var known := WithReference(row, input);
        if row.provider == LedgerInternal then Outcome([], Fail(InvalidRequest))
        else if row.provider != input.provider || row.direction != input.direction || !SameMovement(row, input) then
          Outcome([], Fail(Conflict))
        else if known.reference == Blank then Outcome([], Fail(InvalidRequest))
        else if row.reference != Blank && row.reference != known.reference then Outcome([], Fail(Conflict))
        else if row.status != Pending then Outcome([], ReplayOf(id))
        else if row.ledgerStatus != LedgerPending || !Requeryable(row.providerStatus) then
          Outcome([], Fail(InvalidRequest))
        else RequeryPending(db, id, known, env))
  }

  function RequeryPending(db: DB, id: TransferId, input: RecordInput, env: Env): Outcome
    requires id in db.transfers
  {
    match CompletionStatuses(input)
    case None => Outcome([], Fail(InvalidRequest))
    case Some((status, providerStatus)) =>
      match db.transfers[id].direction
      case Outbound => CompleteOutbound(db, id, input, env)
      case Inbound =>
        if status == Pending then RefreshPendingInbound(db, id, input, providerStatus, env)
        else Settle(db, id, input, env)
      case Reversal => Outcome([], Fail(InvalidRequest))
  }

  function RefreshPendingInbound(db: DB, id: TransferId, input: RecordInput, providerStatus: Status, env: Env): Outcome
    requires id in db.transfers
  {
    var row := db.transfers[id];
    var missing := MissingAccount(db, row.account);
    var unknown := providerStatus == ProviderUnknown;
    Outcome(RowPair(row.account),
      if missing.Some? then Fail(missing.value)
      else
        Done(
          Advance(id,
            row.(
              status := Pending,
              providerStatus := providerStatus,
              ledgerStatus := LedgerPending,
              reconciliation := if unknown then ManualReview else ReconciliationPending,
              reference := input.reference,
              failure := if unknown && input.failure == Blank then Word(UnknownAtProvider) else input.failure,
              updatedAt := env.now),
            None, KeepHold, None),
          id, false))
  }

  // ---- reversal -----------------------------------------------------------

  function ReversalInput(original: Transfer, counterparty: AccountId, input: ReverseInput): RecordInput {
    RecordInput(
      original.account,
      counterparty,
      if original.direction == Outbound then Inbound else Outbound,
      Succeeded,
      original.amount,
      original.currency,
      input.key,
      if input.provider.Some? then input.provider.value else original.provider,
      if input.reference != Blank then input.reference
      else ReversalText(if original.reference != Blank then original.reference else IdText(input.transfer)),
      input.event,
      NoStatus,
      NoFingerprint,
      Some(input.transfer),
      input.failure,
      false,
      false)
  }

  // The transfer row as this transaction sees it, own writes first.
  function RowAfter(db: DB, change: Change, id: TransferId): Option<Transfer> {
    match change
    case Insert(_, row, _, _, _) => Some(row)
    case Advance(_, row, _, _, _) => Some(row)
    case _ => Find(db.transfers, id)
  }

  // UPDATE transfers SET direction = 'reversal' on the row just returned.
  function AsReversal(change: Change, id: TransferId, original: TransferId, now: nat): Change {
    match change
    case Insert(i, row, entry, hold, event) =>
      Insert(i, row.(direction := Reversal, updatedAt := now), entry, hold, event)
    case Advance(i, row, entry, hold, event) =>
      Advance(i, row.(direction := Reversal, updatedAt := now), entry, hold, event)
    case _ => Retag(id, original, now)
  }

  function ReverseTransfer(db: DB, input: ReverseInput, env: Env): Outcome {
    Locked([TransferRow(input.transfer)],
      if input.transfer !in db.transfers then Outcome([], Fail(NotFound))
      else
        var original := db.transfers[input.transfer];
        if original.status != Succeeded || original.journal.None? || original.direction == Reversal then
          Outcome([], Fail(InvalidRequest))
        else if input.transfer in db.reversals && db.reversals[input.transfer] in db.transfers then
          var existing := db.reversals[input.transfer];
          Outcome([],
            if db.transfers[existing].key != input.key then Fail(Conflict) else ReplayOf(existing))
        else ReverseOnce(db, original, input, env))
  }

  function ReverseOnce(db: DB, original: Transfer, input: ReverseInput, env: Env): Outcome {
    match Counterparty(db, original)
    case None => Outcome([], Fail(DataIntegrity))
    case Some(counterparty) =>
      var recorded := RecordTransfer(db, ReversalInput(original, counterparty, input), env);
      recorded.(reply := FinishReversal(db, recorded.reply, input, env))
  }

  // Anything but a reversal of this very transfer is rolled back.
  function FinishReversal(db: DB, recorded: Reply, input: ReverseInput, env: Env): Reply {
    match recorded
    case Fail(error) => Fail(error)
    case Done(change, id, created) =>
      var row := RowAfter(db, change, id);
      if row.None? || row.value.reversalOf != Some(input.transfer) then Fail(Conflict)
      else Done(AsReversal(change, id, input.transfer, env.now), id, created)
  }

  // ---- manual review of a provider event -----------------------------------

  function ReviewProviderStatus(input: ReviewInput): Status {
    if input.providerStatus == NoStatus then input.status else input.providerStatus
  }

  predicate ValidReview(input: ReviewInput) {
    && input.amount > 0
    && input.currency == NGN
    && input.reference != Blank
    && input.fingerprint != NoFingerprint
    && ValidStatus(input.status)
    && ValidProviderStatus(ReviewProviderStatus(input))
  }

  function ReviewEventKey(input: ReviewInput): EventKey {
    EventKey(input.provider, input.event)
  }

  function RecordReview(db: DB, input: ReviewInput, env: Env): Outcome {
    if !ValidReview(input) then Outcome([], Fail(InvalidRequest))
    else
      Locked([KeyLock(input.key)] + (if input.reserveEvent then [EventLock(ReviewEventKey(input))] else []),
        if input.reserveEvent && LinkedTransfer(db, ReviewEventKey(input)).Some? then
          Outcome([], ReplayByEvent(db, ReviewEventKey(input), input.fingerprint))
        else if input.key in db.byKey && db.byKey[input.key] in db.transfers then
          var id := db.byKey[input.key];
          Outcome([TransferRow(id)],
            if db.transfers[id].fingerprint == input.fingerprint then ReplayOf(id) else Fail(Conflict))
        else
          var missing := MissingAccount(db, input.account);
          Outcome(RowPair(input.account),
            if missing.Some? then Fail(missing.value)
            else if input.reserveEvent && ReviewEventKey(input) in db.events then
              ReplayByEvent(db, ReviewEventKey(input), input.fingerprint)
            else
              Done(
                Insert(env.transfer, ReviewRow(input, env), None, KeepHold,
                  if input.reserveEvent then
                    Some(EventWrite(ReviewEventKey(input),
                      ProviderEvent(Some(env.transfer), input.fingerprint, input.reference)))
                  else None),
                env.transfer, true)))
  }

  function ReviewRow(input: ReviewInput, env: Env): Transfer {
    Transfer(
      input.account,
      input.direction,
      input.status,
      ReviewProviderStatus(input),
      NoPosting,
      ManualReview,
      input.amount,
      input.currency,
      input.key,
      input.provider,
      input.reference,
      Some(input.event),
      None,
      None,
      input.fingerprint,
      input.failure,
      env.now,
      env.now)
  }
}
