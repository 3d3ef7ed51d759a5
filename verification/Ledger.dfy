/** How the statements of one transaction change the tables. */
module Ledger {
  import opened Types

  // The change a posting makes to an account with the given normal balance.
  function Signed(normal: Side, side: Side, amount: int): int {
    if normal == side then amount else -amount
  }

  function DebitAccount(input: RecordInput): AccountId {
    if input.direction == Outbound then input.account else input.clearing
  }

  function CreditAccount(input: RecordInput): AccountId {
    if input.direction == Outbound then input.clearing else input.account
  }

  /** The journal a transfer posts: one debit and one credit of the same amount. */
  function JournalFor(input: RecordInput, id: TransferId): Journal {
    Journal(
      id,
      if input.reversalOf.Some? then Reversal else input.direction,
      input.amount,
      input.currency,
      [Posting(DebitAccount(input), Debit, input.amount), Posting(CreditAccount(input), Credit, input.amount)])
  }

  function Adjust(balances: map<AccountId, Balance>, a: AccountId, available: int, ledger: int): map<AccountId,
                  Balance> {
    if a in balances then
      balances[a := balances[a].(available := balances[a].available + available, ledger := balances[a].ledger + ledger)]
    else balances
  }

  /** One posting: the ledger moves by its signed amount, and so does the available
      balance unless the account is the one whose hold is being consumed. */
  function PostOne(accounts: map<AccountId, Account>, balances: map<AccountId, Balance>,
                   posting: Posting, held: Option<AccountId>, journal: JournalId): map<AccountId, Balance>
  {
    if posting.account in accounts && posting.account in balances then
      var delta := Signed(accounts[posting.account].normal, posting.side, posting.amount);
      var moved := Adjust(balances, posting.account, if held == Some(posting.account) then 0 else delta, delta);
      moved[posting.account := moved[posting.account].(lastJournal := Some(journal))]
    else balances
  }

  function PostAll(accounts: map<AccountId, Account>, balances: map<AccountId, Balance>,
                   postings: seq<Posting>, held: Option<AccountId>, journal: JournalId): map<AccountId, Balance>
  {
    if postings == [] then balances
    else
      var n := |postings| - 1;
      PostOne(accounts, PostAll(accounts, balances, postings[..n], held, journal), postings[n], held, journal)
  }

  function PostEntry(db: DB, entry: Option<Entry>, held: Option<AccountId>): map<AccountId, Balance> {
    match entry
    case None => db.balances
    case Some(e) => PostAll(db.accounts, db.balances, e.journal.postings, held, e.id)
  }

  function WithEntry(journals: map<JournalId, Journal>, entry: Option<Entry>): map<JournalId, Journal> {
    match entry
    case None => journals
    case Some(e) => journals[e.id := e.journal]
  }

  function WithEvent(events: map<EventKey, ProviderEvent>, event: Option<EventWrite>): map<EventKey, ProviderEvent> {
    match event
    case None => events
    case Some(e) => events[e.key := e.event]
  }

  function HoldFor(row: Transfer): Hold {
    Hold(row.account, row.amount, row.currency, Active, row.reference)
  }

  predicate ActiveHold(db: DB, id: TransferId) {
    id in db.holds && db.holds[id].status == Active
  }

  // The account whose available balance a posting leaves alone.
  function HeldAccount(row: Transfer, hold: HoldAction): Option<AccountId> {
    if hold == ConsumeHold then Some(row.account) else None
  }

  function ApplyHold(holds: map<TransferId, Hold>, id: TransferId, row: Transfer, hold: HoldAction): map<TransferId,
                     Hold> {
    match hold
    case KeepHold => holds
    case CreateHold => holds[id := HoldFor(row)]
    case ConsumeHold => if id in holds then holds[id := holds[id].(status := Consumed)] else holds
    case ReleaseHold => if id in holds then holds[id := holds[id].(status := Released)] else holds
  }

  // What opening or freeing the hold does to the available balance.
  function ApplyHoldBalance(db: DB, balances: map<AccountId, Balance>, id: TransferId, row: Transfer, hold: HoldAction)
    : map<AccountId, Balance>
  {
    match hold
    case CreateHold => Adjust(balances, row.account, -row.amount, 0)
    case ReleaseHold =>
      if id in db.holds then Adjust(balances, db.holds[id].account, db.holds[id].amount, 0) else balances
    case _ => balances
  }

  function MarkReversal(reversals: map<TransferId, TransferId>, id: TransferId, row: Transfer): map<TransferId,
                        TransferId> {
    if row.direction == Reversal && row.reversalOf.Some? && (row.status == Succeeded || row.status == Pending)
    then reversals[row.reversalOf.value := id]
    else reversals
  }

  function Apply(db: DB, change: Change): DB {
    match change
    case NoChange => db
    case Insert(id, row, entry, hold, event) =>
      db.(
        transfers := db.transfers[id := row],
        byKey := db.byKey[row.key := id],
        journals := WithEntry(db.journals, entry),
        balances := ApplyHoldBalance(db, PostEntry(db, entry, HeldAccount(row, hold)), id, row, hold),
        holds := ApplyHold(db.holds, id, row, hold),
        events := WithEvent(db.events, event),
        reversals := MarkReversal(db.reversals, id, row))
    case Advance(id, row, entry, hold, event) =>
      db.(
        transfers := db.transfers[id := row],
        journals := WithEntry(db.journals, entry),
        balances := ApplyHoldBalance(db, PostEntry(db, entry, HeldAccount(row, hold)), id, row, hold),
        holds := ApplyHold(db.holds, id, row, hold),
        events := WithEvent(db.events, event),
        reversals := MarkReversal(db.reversals, id, row))
    case Retag(id, original, now) =>
      if id in db.transfers then
        db.(
          transfers := db.transfers[id := db.transfers[id].(direction := Reversal, updatedAt := now)],
          reversals := db.reversals[original := id])
      else db
    case PutLien(lien, hold) =>
      db.(
        liens := db.liens[lien := hold],
        balances := Adjust(db.balances, hold.account, -hold.amount, 0))
    case FreeLien(lien) =>
      if lien in db.liens then
        db.(
          liens := db.liens[lien := db.liens[lien].(status := Released)],
          balances := Adjust(db.balances, db.liens[lien].account, db.liens[lien].amount, 0))
      else db
    case PutStatus(a, status) =>
      if a in db.accounts then db.(accounts := db.accounts[a := db.accounts[a].(status := status)]) else db
    case AddAccount(a, account) =>
      db.(accounts := db.accounts[a := account], balances := db.balances[a := Balance(0, 0, None)])
  }
}
