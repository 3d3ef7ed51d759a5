/** The account and status rules, as predicates over argument values. */
module Policy {
  import opened Types

  predicate CustomerInitiatedOutbound(input: RecordInput) {
    input.direction == Outbound && input.reversalOf.None?
  }

  // An account whose available balance must cover what leaves it.
  predicate Restricted(account: Account) {
    account.kind == Customer && !account.allowNegative
  }

  predicate CanUseAvailable(account: Account, available: int, amount: int) {
    Restricted(account) ==> available >= amount
  }

  predicate Barred(account: Account) {
    account.kind == Customer && (account.status == Frozen || account.status == Closed)
  }

  predicate ControlsAllow(input: RecordInput, account: Account, clearing: Account) {
    && !Barred(account)
    && !(account.kind == Customer && account.status == PostNoDebit && input.direction == Outbound)
    && !Barred(clearing)
  }

  predicate CreatesReversalDeficit(account: Account, balance: Balance, input: RecordInput) {
    && input.reversalOf.Some? && input.direction == Outbound
    && Restricted(account)
    && balance.ledger - input.amount < 0
  }

  function LedgerStatusOf(status: Status): LedgerStatus {
    match status
    case Succeeded => Posted
    case Failed => NoPosting
    case _ => LedgerPending
  }

  function ReconciliationOf(status: Status): ReconciliationStatus {
    match status
    case Succeeded => Matched
    case Failed => NoAction
    case _ => ReconciliationPending
  }

  // The CHECK constraints on the two status columns.
  predicate ValidStatus(status: Status) {
    status == Pending || status == Succeeded || status == Failed
  }

  predicate ValidProviderStatus(status: Status) {
    ValidStatus(status) || status == ProviderUnknown
  }

  predicate Requeryable(status: Status) {
    status == Pending || status == ProviderUnknown
  }

  function FingerprintOf(input: RecordInput): Fingerprint {
    if input.fingerprint != NoFingerprint then input.fingerprint
    else Derived(input.provider, input.direction, input.status, input.account, input.clearing, input.amount,
                 input.currency, input.reference, input.event, input.providerStatus, input.reversalOf,
                 input.rejectInsufficient, input.requireAvailable)
  }

  // The provider status a request carries, falling back to its status.
  function ProviderStatusOf(input: RecordInput): Status {
    if input.providerStatus == NoStatus then input.status else input.providerStatus
  }

  // An unknown provider outcome keeps the transfer pending whatever the status says.
  function EffectiveStatus(input: RecordInput): Status {
    if ProviderStatusOf(input) == ProviderUnknown then Pending else input.status
  }
}
