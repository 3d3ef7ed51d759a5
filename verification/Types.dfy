/** The rows, keys and inputs of one institution's slice of the ledger.
    Every statement of the repository filters on the institution, so the model
    keeps one institution and drops the column. */
module Types {

  datatype Option<+T> = None | Some(value: T)

  // Identifiers are opaque; account ids are totally ordered because rows are locked in id order.
  type AccountId = nat
  type TransferId = nat
  type JournalId = nat
  type LienId = nat
  type EventId = nat
  type Key = nat

  // Free text. "reversal:" + x is ReversalText(x); the text of an id is IdText(id).
  datatype Text = Blank | Word(code: nat) | IdText(id: nat) | ReversalText(of: Text)

  datatype Provider = LedgerInternal | External(code: nat)
  datatype Currency = NGN | OtherCurrency(code: nat)
  datatype Direction = Inbound | Outbound | Reversal

  // A status as the code carries it, as a string: blank, one of the known words, or anything else.
  datatype Status = NoStatus | Pending | Succeeded | Failed | ProviderUnknown | OtherStatus

  datatype LedgerStatus = LedgerPending | Posted | NoPosting | ReversalDeficit
  datatype ReconciliationStatus = ReconciliationPending | Matched | NoAction | ManualReview
  datatype HoldStatus = Active | Released | Consumed
  datatype Side = Debit | Credit
  datatype Kind = Customer | Internal
  datatype AccountStatus = ActiveAccount | Frozen | PostNoDebit | Closed

  datatype Account = Account(
    kind: Kind,
    normal: Side,
    allowNegative: bool,
    status: AccountStatus,
    currency: Currency)

  datatype Balance = Balance(available: int, ledger: int, lastJournal: Option<JournalId>)

  datatype Posting = Posting(account: AccountId, side: Side, amount: int)

  datatype Journal = Journal(
    transfer: TransferId,
    entry: Direction,
    amount: int,
    currency: Currency,
    postings: seq<Posting>)

  // A hold for a transfer, or a lien when it belongs to no transfer.
  datatype Hold = Hold(
    account: AccountId,
    amount: int,
    currency: Currency,
    status: HoldStatus,
    reference: Text)

  // SHA-256 over the joined fields, taken to be injective.
  datatype Fingerprint =
    | NoFingerprint
    | Given(code: nat)
    | Derived(
        provider: Provider,
        direction: Direction,
        status: Status,
        account: AccountId,
        clearing: AccountId,
        amount: int,
        currency: Currency,
        reference: Text,
        event: Option<EventId>,
        providerStatus: Status,
        reversalOf: Option<TransferId>,
        rejectInsufficient: bool,
        requireAvailable: bool)

  datatype Transfer = Transfer(
    account: AccountId,
    direction: Direction,
    status: Status,
    providerStatus: Status,
    ledgerStatus: LedgerStatus,
    reconciliation: ReconciliationStatus,
    amount: int,
    currency: Currency,
    key: Key,
    provider: Provider,
    reference: Text,
    event: Option<EventId>,
    journal: Option<JournalId>,
    reversalOf: Option<TransferId>,
    fingerprint: Fingerprint,
    failure: Text,
    createdAt: nat,
    updatedAt: nat)

  datatype EventKey = EventKey(provider: Provider, event: EventId)
  datatype ProviderEvent = ProviderEvent(transfer: Option<TransferId>, fingerprint: Fingerprint, reference: Text)

  /** The tables. `byKey` and `reversals` are the unique indexes on the
      idempotency key and on the active reversal of a transfer; `holds` is keyed
      by its transfer because (institution, transfer) is unique there. */
  datatype DB = DB(
    accounts: map<AccountId, Account>,
    balances: map<AccountId, Balance>,
    journals: map<JournalId, Journal>,
    transfers: map<TransferId, Transfer>,
    byKey: map<Key, TransferId>,
    holds: map<TransferId, Hold>,
    liens: map<LienId, Hold>,
    events: map<EventKey, ProviderEvent>,
    reversals: map<TransferId, TransferId>)

  datatype RecordInput = RecordInput(
    account: AccountId,
    clearing: AccountId,
    direction: Direction,
    status: Status,
    amount: int,
    currency: Currency,
    key: Key,
    provider: Provider,
    reference: Text,
    event: Option<EventId>,
    providerStatus: Status,
    fingerprint: Fingerprint,
    reversalOf: Option<TransferId>,
    failure: Text,
    rejectInsufficient: bool,
    requireAvailable: bool)

  datatype ReverseInput = ReverseInput(
    transfer: TransferId,
    key: Key,
    provider: Option<Provider>,
    reference: Text,
    event: Option<EventId>,
    failure: Text)

  datatype ReviewInput = ReviewInput(
    account: AccountId,
    direction: Direction,
    status: Status,
    providerStatus: Status,
    amount: int,
    currency: Currency,
    key: Key,
    provider: Provider,
    reference: Text,
    event: EventId,
    fingerprint: Fingerprint,
    failure: Text,
    reserveEvent: bool)

  datatype LienInput = LienInput(account: AccountId, amount: int, currency: Currency, reference: Text)
  datatype ReleaseInput = ReleaseInput(account: AccountId, lien: LienId)
  datatype StatusInput = StatusInput(account: AccountId, status: AccountStatus, allowed: seq<AccountStatus>)

  /** What one transaction gets from outside: the clock, fresh ids, and the rows
      the three unguarded lookups picked (a pending or settled transfer by
      provider reference, an active lien by reference). A picked row is locked
      and checked again, so a pick may be stale and a miss may be late. */
  datatype Env = Env(
    now: nat,
    transfer: TransferId,
    journal: JournalId,
    lien: LienId,
    account: AccountId,
    pendingPick: Option<TransferId>,
    settledPick: Option<TransferId>,
    lienPick: Option<LienId>)

  datatype Error = NotFound | Insufficient | InvalidRequest | Conflict | DataIntegrity | CheckViolation | CommitFailed

  datatype Op =
    | Record(input: RecordInput)
    | Complete(id: TransferId, input: RecordInput)
    | Requery(id: TransferId, input: RecordInput)
    | Reverse(reverse: ReverseInput)
    | Review(review: ReviewInput)
    | PlaceLien(lien: LienInput)
    | ReleaseLien(release: ReleaseInput)
    | SetStatus(control: StatusInput)
    | CreateAccount(currency: Currency)

  /** What a transaction locks: advisory keys, and rows taken FOR UPDATE. A
      transfer row also guards its hold, its journal and its active reversal. */
  datatype Resource =
    | KeyLock(key: Key)
    | EventLock(event: EventKey)
    | ReferenceLock(provider: Provider, reference: Text, direction: Direction)
    | LienReferenceLock(reference: Text)
    | TransferRow(transfer: TransferId)
    | AccountRow(account: AccountId)
    | BalanceRow(account: AccountId)
    | LienRow(lien: LienId)

  datatype Entry = Entry(id: JournalId, journal: Journal)
  datatype EventWrite = EventWrite(key: EventKey, event: ProviderEvent)
  datatype HoldAction = KeepHold | CreateHold | ConsumeHold | ReleaseHold

  /** The statements one transaction executes, as one value. */
  datatype Change =
    | NoChange
    | Insert(id: TransferId, row: Transfer, entry: Option<Entry>, hold: HoldAction, event: Option<EventWrite>)
    | Advance(id: TransferId, row: Transfer, entry: Option<Entry>, hold: HoldAction, event: Option<EventWrite>)
    | Retag(id: TransferId, original: TransferId, now: nat)
    | PutLien(lien: LienId, newLien: Hold)
    | FreeLien(lien: LienId)
    | PutStatus(account: AccountId, status: AccountStatus)
    | AddAccount(account: AccountId, newAccount: Account)

  datatype Reply = Done(change: Change, id: nat, created: bool) | Fail(error: Error)
  datatype Outcome = Outcome(locks: seq<Resource>, reply: Reply)

  function Find<K, V>(m: map<K, V>, k: K): Option<V> {
    if k in m then Some(m[k]) else None
  }
}
