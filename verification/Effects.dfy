/** What requests ask of accounts and do to money, in terms of the rows' own fields: the
    yardstick the transactions are measured against. */
module Effects {
  import opened Types
  import opened Policy
  import opened Ledger
  import opened Invariant

  // ---- account controls -----------------------------------------------------------

  // Internal accounts always are; customer accounts unless frozen or closed.
  predicate Usable(account: Account) {
    account.kind == Internal || account.status == ActiveAccount || account.status == PostNoDebit
  }

  /** Two different accounts in use; only what leaves the named account needs it free of post-no-debit. */
  predicate Allowed(db: DB, named: AccountId, other: AccountId, direction: Direction) {
    && named in db.accounts && other in db.accounts && named != other
    && Usable(db.accounts[named]) && Usable(db.accounts[other])
    && (direction == Outbound && db.accounts[named].kind == Customer ==> db.accounts[named].status != PostNoDebit)
  }

  /** The controls refuse a customer account that is frozen or closed on either side, a
      customer's own outbound request under post-no-debit, and nothing else. */
  lemma ControlsAllowIff(db: DB, input: RecordInput)
    requires input.account in db.accounts && input.clearing in db.accounts && input.account != input.clearing
    ensures ControlsAllow(input, db.accounts[input.account], db.accounts[input.clearing])
       <==> Allowed(db, input.account, input.clearing, input.direction)
  {
  }

  // ---- statuses --------------------------------------------------------------------

  predicate KnownWord(status: Status) {
    status == Pending || status == Succeeded || status == Failed
  }

  // The provider status a request carries; a blank one is filled in from the status.
  function Carried(input: RecordInput): Status {
    if input.providerStatus == NoStatus then input.status else input.providerStatus
  }

  // ---- money ------------------------------------------------------------------------

  function Payer(input: RecordInput): AccountId {
    if input.direction == Outbound then input.account else input.clearing
  }

  function Payee(input: RecordInput): AccountId {
    if input.direction == Outbound then input.clearing else input.account
  }

  // What debiting one account and crediting another does to an account's ledger.
  function Swing(account: Account, a: AccountId, debited: AccountId, credited: AccountId, amount: int): int {
    if a == debited then (if account.normal == Debit then amount else -amount)
    else if a == credited then (if account.normal == Credit then amount else -amount)
    else 0
  }

  /** Every balance moves by its swing, the available one too, except that of a payer whose
      hold pays; the two accounts remember the journal. */
  predicate Pays(db: DB, next: DB, from: AccountId, to: AccountId, amount: int, journal: JournalId, fromHold: bool) {
    && next.balances.Keys == db.balances.Keys
    && forall a | a in db.accounts && a in db.balances ::
         var was, now, swing := db.balances[a], next.balances[a], Swing(db.accounts[a], a, from, to, amount);
         && now.ledger == was.ledger + swing
         && now.available == was.available + (if fromHold && a == from then 0 else swing)
         && now.lastJournal == if a == from || a == to then Some(journal) else was.lastJournal
  }

  // One available balance moves; everything else about the balances stays.
  predicate Frees(db: DB, next: DB, a: AccountId, amount: int) {
    && a in db.balances
    && next.balances == db.balances[a := db.balances[a].(available := db.balances[a].available + amount)]
  }

  // The journal of a movement: one debit, one credit.
  function Booked(id: TransferId, entry: Direction, from: AccountId, to: AccountId, amount: int,
                  currency: Currency): Journal {
    Journal(id, entry, amount, currency, [Posting(from, Debit, amount), Posting(to, Credit, amount)])
  }

  // Neither journals nor balances nor holds move.
  predicate MoneyStill(db: DB, next: DB) {
    next.journals == db.journals && next.balances == db.balances && next.holds == db.holds
  }

  // The event a request reserves and links, if it carries one.
  function EventsWith(db: DB, input: RecordInput, id: TransferId): map<EventKey, ProviderEvent> {
    if input.event.Some? then
      db.events[EventKey(input.provider, input.event.value) :=
                  ProviderEvent(Some(id), FingerprintOf(input), input.reference)]
    else db.events
  }

  predicate EventUnseen(db: DB, input: RecordInput) {
    input.event.Some? ==> EventKey(input.provider, input.event.value) !in db.events
  }

  // ---- posting does just that ---------------------------------------------------------

  lemma PostPair(accounts: map<AccountId, Account>, balances: map<AccountId, Balance>, p: Posting, q: Posting,
                 held: Option<AccountId>, j: JournalId)
    ensures PostAll(accounts, balances, [p, q], held, j)
         == PostOne(accounts, PostOne(accounts, balances, p, held, j), q, held, j)
  {
    assert [p, q][..1] == [p];
    assert [p][..0] == [];
    assert PostAll(accounts, balances, [p], held, j) == PostOne(accounts, balances, p, held, j);
  }

  // The balances after one booked journal.
  lemma BookingPays(db: DB, next: DB, id: TransferId, entry: Direction, from: AccountId, to: AccountId, amount: int,
                    currency: Currency, journal: JournalId, fromHold: bool)
    requires AccountsOk(db) && from in db.accounts && to in db.accounts && from != to
    requires next.balances == PostAll(db.accounts, db.balances, Booked(id, entry, from, to, amount, currency).postings,
                                      if fromHold then Some(from) else None, journal)
    ensures Pays(db, next, from, to, amount, journal, fromHold)
  {
    PostPair(db.accounts, db.balances, Posting(from, Debit, amount), Posting(to, Credit, amount),
             if fromHold then Some(from) else None, journal);
  }

  lemma JournalIsBooked(input: RecordInput, id: TransferId)
    requires input.direction != Reversal
    ensures JournalFor(input, id)
         == Booked(id, if input.reversalOf.Some? then Reversal else input.direction, Payer(input), Payee(input),
                   input.amount, input.currency)
  {
  }
}
