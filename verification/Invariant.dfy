/** What holds of the tables in every reachable state. */
module Invariant {
  import opened Types
  import opened Policy
  import opened Ledger
  import opened Transfers
  import opened Sums

  // ---- money -------------------------------------------------------------

  function PostingsEffect(postings: seq<Posting>, a: AccountId, normal: Side): int {
    if postings == [] then 0
    else
      var n := |postings| - 1;
      PostingsEffect(postings[..n], a, normal)
      + (if postings[n].account == a then Signed(normal, postings[n].side, postings[n].amount) else 0)
  }

  // What a journal does to an account's ledger.
  ghost function Effect(a: AccountId, normal: Side): (JournalId, Journal) -> int {
    (j: JournalId, journal: Journal) => PostingsEffect(journal.postings, a, normal)
  }

  // What a hold or lien keeps away from an account's available balance.
  ghost function ActiveOn(a: AccountId): (nat, Hold) -> int {
    (id: nat, hold: Hold) => if hold.account == a && hold.status == Active then hold.amount else 0
  }

  ghost function PostedSum(db: DB, a: AccountId): int
    requires a in db.accounts
  {
    Sum(db.journals, Effect(a, db.accounts[a].normal))
  }

  ghost function HeldSum(db: DB, a: AccountId): int {
    Sum(db.holds, ActiveOn(a)) + Sum(db.liens, ActiveOn(a))
  }

  /** The cached balances agree with the postings and the active holds. */
  ghost predicate MoneyAt(db: DB, a: AccountId)
    requires a in db.accounts && a in db.balances
  {
    && db.balances[a].ledger == PostedSum(db, a)
    && db.balances[a].available == db.balances[a].ledger - HeldSum(db, a)
  }

  ghost predicate MoneyOk(db: DB)
    requires db.accounts.Keys == db.balances.Keys
  {
    forall a {:trigger MoneyAt(db, a)} | a in db.accounts :: MoneyAt(db, a)
  }

  // ---- rows --------------------------------------------------------------

  predicate AccountsOk(db: DB) {
    && db.accounts.Keys == db.balances.Keys
    && forall a | a in db.accounts :: db.accounts[a].kind == Customer ==> db.accounts[a].normal == Credit
  }

  // One debit and one credit of the same positive amount, on two accounts.
  predicate Balanced(journal: Journal) {
    && |journal.postings| == 2
    && journal.postings[0].side == Debit && journal.postings[1].side == Credit
    && journal.postings[0].amount == journal.amount == journal.postings[1].amount
    && journal.amount > 0
    && journal.postings[0].account != journal.postings[1].account
  }

  predicate JournalOk(db: DB, j: JournalId)
    requires j in db.journals
  {
    var journal := db.journals[j];
    && Balanced(journal)
    && journal.postings[0].account in db.accounts && journal.postings[1].account in db.accounts
    && journal.transfer in db.transfers
    && db.transfers[journal.transfer].journal == Some(j)
  }

  // The journal moves the transfer's amount the way the transfer says.
  predicate Moves(journal: Journal, row: Transfer) {
    && Balanced(journal)
    && journal.amount == row.amount
    && match row.direction
       case Outbound => journal.postings[0].account == row.account
       case Inbound => journal.postings[1].account == row.account
       case Reversal => journal.postings[0].account == row.account || journal.postings[1].account == row.account
  }

  predicate StatusesOk(row: Transfer) {
    && ValidStatus(row.status) && ValidProviderStatus(row.providerStatus)
    && (row.status == Succeeded <==> row.journal.Some?)
    && (row.status == Succeeded <==> row.ledgerStatus == Posted || row.ledgerStatus == ReversalDeficit)
    && (row.status == Failed ==> row.ledgerStatus == NoPosting)
    && Labelled(row)
  }

  // What the reconciliation column tells about the other three.
  predicate Labelled(row: Transfer) {
    && (row.reconciliation == Matched ==> row.status == Succeeded && row.ledgerStatus == Posted)
    && (row.reconciliation == NoAction ==> row.status == Failed)
    && (row.reconciliation == ReconciliationPending ==> row.status == Pending && row.ledgerStatus == LedgerPending)
    && (row.status == Succeeded && row.reconciliation == ManualReview ==> row.ledgerStatus == ReversalDeficit)
    && (row.ledgerStatus == ReversalDeficit ==> row.reconciliation == ManualReview && row.reversalOf.Some?)
    && (row.providerStatus == ProviderUnknown ==> row.reconciliation == ManualReview && row.journal.None?)
  }

  predicate RowOk(db: DB, id: TransferId)
    requires id in db.transfers
  {
    var row := db.transfers[id];
    && row.account in db.accounts
    && row.amount > 0
    && StatusesOk(row)
    && (row.journal.Some? ==>
        && row.journal.value in db.journals
        && db.journals[row.journal.value].transfer == id
        && Moves(db.journals[row.journal.value], row))
    && (row.direction == Reversal <==> row.reversalOf.Some?)
    && (row.reversalOf.Some? ==> row.status == Succeeded)
  }

  predicate RowsOk(db: DB) {
    && (forall j {:trigger JournalOk(db, j)} | j in db.journals :: JournalOk(db, j))
    && (forall id {:trigger RowOk(db, id)} | id in db.transfers :: RowOk(db, id))
  }

  predicate KeyOk(db: DB, k: Key)
    requires k in db.byKey
  {
    db.byKey[k] in db.transfers && db.transfers[db.byKey[k]].key == k
  }

  predicate Keyed(db: DB, id: TransferId)
    requires id in db.transfers
  {
    db.transfers[id].key in db.byKey && db.byKey[db.transfers[id].key] == id
  }

  predicate KeysOk(db: DB) {
    && (forall k {:trigger KeyOk(db, k)} | k in db.byKey :: KeyOk(db, k))
    && (forall id {:trigger Keyed(db, id)} | id in db.transfers :: Keyed(db, id))
  }

  // A hold is active, consumed or released exactly as its transfer is pending, succeeded or failed.
  predicate HoldTracks(status: HoldStatus, transfer: Status) {
    && (status == Active <==> transfer == Pending)
    && (status == Consumed <==> transfer == Succeeded)
    && (status == Released <==> transfer == Failed)
  }

  predicate HoldOk(db: DB, id: TransferId)
    requires id in db.holds
  {
    && id in db.transfers
    && HoldsFunds(db.transfers[id])
    && db.holds[id].account == db.transfers[id].account
    && db.holds[id].amount == db.transfers[id].amount
    && HoldTracks(db.holds[id].status, db.transfers[id].status)
    && db.transfers[id].account in db.accounts
    && db.accounts[db.transfers[id].account].normal == Credit
  }

  predicate PendingHeld(db: DB, id: TransferId)
    requires id in db.transfers
  {
    HoldsFunds(db.transfers[id]) && db.transfers[id].status == Pending ==> id in db.holds
  }

  predicate HoldsOk(db: DB) {
    && (forall id {:trigger HoldOk(db, id)} | id in db.holds :: HoldOk(db, id))
    && (forall id {:trigger PendingHeld(db, id)} | id in db.transfers :: PendingHeld(db, id))
  }

  predicate LienOk(db: DB, l: LienId)
    requires l in db.liens
  {
    && db.liens[l].account in db.accounts
    && db.accounts[db.liens[l].account].kind == Customer
    && db.liens[l].amount > 0
  }

  predicate LiensOk(db: DB) {
    forall l {:trigger LienOk(db, l)} | l in db.liens :: LienOk(db, l)
  }

  predicate EventOk(db: DB, e: EventKey)
    requires e in db.events
  {
    db.events[e].transfer.Some? && db.events[e].transfer.value in db.transfers
  }

  predicate EventsOk(db: DB) {
    forall e {:trigger EventOk(db, e)} | e in db.events :: EventOk(db, e)
  }

  // The two journals move the same amount between the same accounts, in opposite directions.
  predicate Mirror(journal: Journal, reversal: Journal) {
    && Balanced(journal) && Balanced(reversal)
    && journal.amount == reversal.amount
    && journal.postings[0].account == reversal.postings[1].account
    && journal.postings[1].account == reversal.postings[0].account
  }

  predicate Posts(db: DB, id: TransferId) {
    && id in db.transfers
    && db.transfers[id].journal.Some?
    && db.transfers[id].journal.value in db.journals
  }

  function JournalOf(db: DB, id: TransferId): Journal
    requires Posts(db, id)
  {
    db.journals[db.transfers[id].journal.value]
  }

  predicate ReversalOk(db: DB, o: TransferId)
    requires o in db.reversals
  {
    var r := db.reversals[o];
    && Posts(db, o) && Posts(db, r)
    && db.transfers[o].direction != Reversal
    && db.transfers[r].reversalOf == Some(o)
    && db.transfers[r].account == db.transfers[o].account
    && Mirror(JournalOf(db, o), JournalOf(db, r))
  }

  predicate ReversalListed(db: DB, id: TransferId)
    requires id in db.transfers
  {
    db.transfers[id].reversalOf.Some? ==>
      db.transfers[id].reversalOf.value in db.reversals && db.reversals[db.transfers[id].reversalOf.value] == id
  }

  predicate ReversalsOk(db: DB) {
    && (forall o {:trigger ReversalOk(db, o)} | o in db.reversals :: ReversalOk(db, o))
    && (forall id {:trigger ReversalListed(db, id)} | id in db.transfers :: ReversalListed(db, id))
  }

  ghost predicate Inv(db: DB) {
    && AccountsOk(db)
    && MoneyOk(db)
    && RowsOk(db)
    && KeysOk(db)
    && HoldsOk(db)
    && LiensOk(db)
    && EventsOk(db)
    && ReversalsOk(db)
  }

  // ---- changes that keep it ------------------------------------------------

  predicate EventFree(db: DB, event: Option<EventWrite>, id: TransferId) {
    event.Some? ==> event.value.key !in db.events && event.value.event.transfer == Some(id)
  }

  // The entry is posted for this very row, under a fresh id, between known accounts.
  predicate EntryOk(db: DB, id: TransferId, row: Transfer, entry: Option<Entry>) {
    && (entry.Some? <==> row.status == Succeeded)
    && row.journal == (if entry.Some? then Some(entry.value.id) else None)
    && (entry.Some? ==>
        && entry.value.id !in db.journals
        && entry.value.journal.transfer == id
        && Moves(entry.value.journal, row)
        && entry.value.journal.postings[0].account in db.accounts
        && entry.value.journal.postings[1].account in db.accounts)
  }

  predicate NewReversalOk(db: DB, row: Transfer, entry: Option<Entry>) {
    && (row.direction == Reversal <==> row.reversalOf.Some?)
    && (row.reversalOf.Some? ==>
        var o := row.reversalOf.value;
        && row.status == Succeeded && entry.Some?
        && o !in db.reversals
        && Posts(db, o)
        && db.transfers[o].direction != Reversal
        && db.transfers[o].account == row.account
        && Mirror(JournalOf(db, o), entry.value.journal))
  }

  predicate InsertOk(db: DB, id: TransferId, row: Transfer, entry: Option<Entry>, hold: HoldAction,
                     event: Option<EventWrite>) {
    && id !in db.transfers
    && row.key !in db.byKey
    && row.account in db.accounts
    && row.amount > 0
    && StatusesOk(row)
    && EntryOk(db, id, row, entry)
    && NewReversalOk(db, row, entry)
    && EventFree(db, event, id)
    && (hold == CreateHold || hold == KeepHold)
    && (hold == CreateHold <==> row.status == Pending && HoldsFunds(row))
    && (hold == CreateHold ==> db.accounts[row.account].normal == Credit)
  }

  predicate SameIdentity(was: Transfer, row: Transfer) {
    && row.account == was.account && row.direction == was.direction && row.amount == was.amount
    && row.currency == was.currency && row.key == was.key && row.provider == was.provider
    && row.reversalOf == was.reversalOf && row.fingerprint == was.fingerprint && row.createdAt == was.createdAt
  }

  // A pending row moves on; who, how much and which way never change.
  predicate AdvanceOk(db: DB, id: TransferId, row: Transfer, entry: Option<Entry>, hold: HoldAction,
                      event: Option<EventWrite>) {
    && id in db.transfers
    && db.transfers[id].status == Pending
    && SameIdentity(db.transfers[id], row)
    && StatusesOk(row)
    && EntryOk(db, id, row, entry)
    && EventFree(db, event, id)
    && hold == (if !HoldsFunds(row) || row.status == Pending then KeepHold
                else if row.status == Succeeded then ConsumeHold else ReleaseHold)
  }

  predicate ChangeOk(db: DB, change: Change) {
    match change
    case NoChange => true
    case Insert(id, row, entry, hold, event) => InsertOk(db, id, row, entry, hold, event)
    case Advance(id, row, entry, hold, event) => AdvanceOk(db, id, row, entry, hold, event)
    case Retag(_, _, _) => false
    case PutLien(lien, hold) =>
      && lien !in db.liens && hold.status == Active && hold.amount > 0
      && hold.account in db.accounts && db.accounts[hold.account].kind == Customer
    case FreeLien(lien) => lien in db.liens && db.liens[lien].status == Active
    case PutStatus(a, _) => a in db.accounts
    case AddAccount(a, account) =>
      a !in db.accounts && account.kind == Customer && account.normal == Credit && !account.allowNegative
  }
}
