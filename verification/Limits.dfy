/** Where the guarantees stop: requests the repository accepts that the run theorems
    exclude, and overdrafts it does not flag. */
module Limits {
  import opened Types
  import opened Policy
  import opened Ledger
  import opened Transfers
  import opened Steps
  import opened Invariant
  import opened Preservation
  import opened Decisions
  import opened Runs
  import opened Funds
  import opened Deficits
  import Provider

  // ---- holds on debit-normal accounts -------------------------------------------

  // A pending outbound transfer with its active hold, on an account of either side.
  predicate HeldPending(db: DB, id: TransferId) {
    && id in db.transfers
    && db.transfers[id].status == Pending && db.transfers[id].amount > 0
    && ActiveHold(db, id)
    && db.holds[id].account == db.transfers[id].account && db.holds[id].amount == db.transfers[id].amount
  }

  lemma CompletedChange(db: DB, id: TransferId, input: RecordInput, env: Env)
    requires AccountsOk(db) && HeldPending(db, id) && env.journal !in db.journals
    requires input.reversalOf.None? && Committed(db, Complete(id, input), env).Advance?
    requires Committed(db, Complete(id, input), env).row.status == Succeeded
    ensures var change := Committed(db, Complete(id, input), env);
            && change.id == id && change.hold == ConsumeHold
            && change.row.account == db.transfers[id].account && change.row.amount == db.transfers[id].amount
            && change.row.direction == Outbound && change.row.account in db.accounts
            && change.entry.Some? && change.entry.value.id !in db.journals
            && (input.direction == Outbound ==> Moves(change.entry.value.journal, change.row))
  {
  }

  /** Completing a held transfer leaves the account's available balance equal to its ledger
      less its holds if and only if the account is credit-normal. */
  lemma ConsumedHoldReconcilesIff(db: DB, id: TransferId, input: RecordInput, env: Env)
    requires AccountsOk(db) && MoneyOk(db) && HeldPending(db, id) && env.journal !in db.journals
    requires input.direction == Outbound && input.reversalOf.None? && Committed(db, Complete(id, input), env).Advance?
    requires Committed(db, Complete(id, input), env).row.status == Succeeded
    ensures var a, next := db.transfers[id].account, Step(db, Complete(id, input), env);
            && a in db.accounts && a in next.accounts && a in next.balances
            && (MoneyAt(next, a) <==> db.accounts[a].normal == Credit)
  {
    CompletedChange(db, id, input, env);
    var change := Committed(db, Complete(id, input), env);
    var a := db.transfers[id].account;
    assert MoneyAt(db, a);
    OutboundEffect(db, change.row, change.entry);
    MovedMoney(db, Step(db, Complete(id, input), env), id, change.row, change.entry, ConsumeHold, a);
  }

  // ---- a run to each limit ----------------------------------------------------------

  const Settlement: AccountId := 0
  const Ada: AccountId := 1
  const Bola: AccountId := 2
  const Zero := Balance(0, 0, None)

  // One debit-normal settlement account and two customers, at zero.
  const Opening: DB := DB(
    map[Settlement := Account(Internal, Debit, false, ActiveAccount, NGN),
        Ada := Account(Customer, Credit, false, ActiveAccount, NGN),
        Bola := Account(Customer, Credit, false, ActiveAccount, NGN)],
    map[Settlement := Zero, Ada := Zero, Bola := Zero],
    map[], map[], map[], map[], map[], map[], map[])

  function Move(from: AccountId, to: AccountId, direction: Direction, status: Status, key: Key): RecordInput {
    RecordInput(if direction == Outbound then from else to, if direction == Outbound then to else from,
                direction, status,
                100, NGN, key, External(0), Blank, None, NoStatus, NoFingerprint, None, Blank, true, false)
  }

  function At(n: nat): Env {
    Env(n, n, n, n, n + 10, None, None, None)
  }

  lemma OpeningInv()
    ensures Inv(Opening)
  {
    InitialInv(Opening);
  }

  // A hold on the settlement account, then its completion.
  const HoldOnSettlement: Op := Record(Move(Settlement, Ada, Outbound, Pending, 1))
  const CompleteIt: Op := Complete(1, Move(Settlement, Ada, Outbound, Succeeded, 1))

  lemma HoldPlaced()
    ensures var change := Committed(Opening, HoldOnSettlement, At(1));
            change.Insert? && change.id == 1 && change.hold == CreateHold && change.entry == None
            && change.row.account == Settlement && change.row.status == Pending && change.row.amount == 100
  {
  }

  lemma HoldCompletes(db: DB)
    requires db == Step(Opening, HoldOnSettlement, At(1))
    ensures HeldPending(db, 1)
    ensures Committed(db, CompleteIt, At(2)).Advance? && Committed(db, CompleteIt, At(2)).row.status == Succeeded
    ensures db.transfers[1].account == Settlement && db.accounts == Opening.accounts && db.journals == map[]
  {
  }

  /** Two requests the repository accepts, but for the side of the held account, end with an
      available balance that no longer matches ledger and holds. */
  lemma DebitNormalHoldBreaks()
    ensures var held := Step(Opening, HoldOnSettlement, At(1));
            var after := Step(held, CompleteIt, At(2));
            && Inv(Opening) && WellFormed(HoldOnSettlement) && WellFormed(CompleteIt)
            && Settlement in after.accounts && Settlement in after.balances
            && !MoneyAt(after, Settlement)
  {
    OpeningInv();
    HoldPlaced();
    var held := Step(Opening, HoldOnSettlement, At(1));
    var change := Committed(Opening, HoldOnSettlement, At(1));
    TransferChangeMoney(Opening, held, change.id, change.row, change.entry, change.hold);
    HoldCompletes(held);
    ConsumedHoldReconcilesIff(held, 1, Move(Settlement, Ada, Outbound, Succeeded, 1), At(2));
  }

  // ---- overdrafts nobody flags -------------------------------------------------------

  const CreditAda: RecordInput := Move(Settlement, Ada, Inbound, Succeeded, 1)
  const AdaToBola: RecordInput := Move(Ada, Bola, Outbound, Succeeded, 2)
  const BolaSpends: RecordInput := Move(Bola, Settlement, Outbound, Succeeded, 3)
  const UndoAdaToBola: ReverseInput := ReverseInput(2, 4, None, Blank, None, Blank)

  // The row a posted request of 100 gets.
  function Row(input: RecordInput, n: nat): Transfer {
    Transfer(input.account, input.direction, Succeeded, Succeeded, Posted, Matched, 100, NGN, input.key, External(0),
             Blank, None, Some(n), None, FingerprintOf(input), Blank, n, n)
  }

  predicate PostedAndMatched(row: Transfer) {
    row.ledgerStatus == Posted && row.reconciliation == Matched
  }

  // What the rest of a run looks at after n requests: every row posted and matched, but for
  // the one that is still pending.
  predicate Books(db: DB, n: nat, pending: nat) {
    && db.accounts == Opening.accounts && db.balances.Keys == db.accounts.Keys
    && (forall id | id in db.transfers :: id <= n && (id != pending ==> PostedAndMatched(db.transfers[id])))
    && (forall j | j in db.journals :: j <= n)
    && (forall k | k in db.byKey :: k <= n)
    && db.liens == map[]
  }

  predicate Has(db: DB, a: AccountId, available: int, ledger: int) {
    a in db.balances && db.balances[a].available == available && db.balances[a].ledger == ledger
  }

  // The two customers after n posted requests.
  predicate Stand(db: DB, n: nat, ada: int, bola: int) {
    Books(db, n, 0) && 0 !in db.transfers && db.reversals == map[] && Has(db, Ada, ada, ada)
      && Has(db, Bola, bola, bola)
  }

  // The request n was posted.
  predicate Recorded(db: DB, input: RecordInput, n: nat) {
    n in db.transfers && db.transfers[n] == Row(input, n) && n in db.journals && db.journals[n] == JournalFor(input, n)
  }

  // Some run of the service's requests leads from here to a state like that.
  ghost predicate CanReach(db: DB, p: DB -> bool) {
    exists calls :: ServiceRun(db, calls) && p(Run(db, calls))
  }

  // Whatever can be reached from the second can be reached from the first.
  ghost predicate LeadsTo(db: DB, next: DB) {
    Inv(next) && forall p {:trigger CanReach(next, p)} | CanReach(next, p) :: CanReach(db, p)
  }

  lemma ReachedHere(db: DB, p: DB -> bool)
    requires p(db)
    ensures CanReach(db, p)
  {
    assert ServiceRun(db, []) && Run(db, []) == db;
  }

  lemma ReachedBefore(db: DB, op: Op, env: Env, p: DB -> bool)
    requires Admissible(db, op, env) && ClearingInternal(db, op) && CanReach(Step(db, op, env), p)
    ensures CanReach(db, p)
  {
    var calls :| ServiceRun(Step(db, op, env), calls) && p(Run(Step(db, op, env), calls));
    var longer := [Call(op, env)] + calls;
    assert longer[1..] == calls;
    assert ServiceRun(db, longer) && Run(db, longer) == Run(Step(db, op, env), calls);
  }

  lemma StepLeads(db: DB, op: Op, env: Env, change: Change)
    requires Inv(db) && Admissible(db, op, env) && ClearingInternal(db, op) && change == Committed(db, op, env)
    ensures ChangeOk(db, change) && LeadsTo(db, Apply(db, change))
  {
    CommittedOk(db, op, env);
    StepKeepsInv(db, op, env);
    forall p | CanReach(Apply(db, change), p) ensures CanReach(db, p) { ReachedBefore(db, op, env, p); }
  }

  // A request of 100 that nothing stands in the way of.
  predicate Unopposed(db: DB, input: RecordInput) {
    && input.direction != Reversal && input.account != input.clearing
    && input == Move(DebitAccount(input), CreditAccount(input), input.direction, Succeeded, input.key)
    && input.account in db.accounts && input.clearing in db.accounts
    && db.accounts == Opening.accounts && db.balances.Keys == db.accounts.Keys
    && input.key !in db.byKey
    && (input.direction == Inbound ==> input.clearing == Settlement)
    && (input.direction == Outbound ==> db.balances[input.account].available >= 100)
  }

  lemma PostedRequest(db: DB, input: RecordInput, n: nat)
    requires Unopposed(db, input)
    ensures Committed(db, Record(input), At(n))
         == Insert(n, Row(input, n), Some(Entry(n, JournalFor(input, n))), KeepHold, None)
  {
  }

  // What a request of 100 does to a customer.
  function Delta(input: RecordInput, a: AccountId): int {
    if CreditAccount(input) == a then 100 else if DebitAccount(input) == a then -100 else 0
  }

  lemma PostedMoves(db: DB, input: RecordInput, n: nat, change: Change, a: AccountId)
    requires Inv(db) && ChangeOk(db, change) && db.accounts == Opening.accounts && (a == Ada || a == Bola)
    requires change == Insert(n, Row(input, n), Some(Entry(n, JournalFor(input, n))), KeepHold, None)
    requires input.amount == 100
    requires Has(db, a, db.balances[a].ledger, db.balances[a].ledger)
    ensures Has(Apply(db, change), a, db.balances[a].ledger + Delta(input, a), db.balances[a].ledger + Delta(input, a))
  {
    TransferMovesCustomer(db, change, a);
  }

  lemma PostedStand(db: DB, input: RecordInput, n: nat, ada: int, bola: int, change: Change, next: DB)
    requires Inv(db) && Stand(db, n, ada, bola) && ChangeOk(db, change) && next == Apply(db, change)
    requires input.key == n + 1 && input.direction != Reversal && input.amount == 100
    requires change == Insert(n + 1, Row(input, n + 1), Some(Entry(n + 1, JournalFor(input, n + 1))), KeepHold, None)
    ensures Stand(next, n + 1, ada + Delta(input, Ada), bola + Delta(input, Bola)) && Recorded(next, input, n + 1)
    ensures forall k: nat, was | k <= n && Recorded(db, was, k) :: Recorded(next, was, k)
  {
    PostedMoves(db, input, n + 1, change, Ada);
    PostedMoves(db, input, n + 1, change, Bola);
    MovedBalance(db, change.id, change.row, change.entry, change.hold, Ada);
    PostedBooks(db, input, n, change);
  }

  lemma PostedCommits(db: DB, input: RecordInput, n: nat) returns (change: Change)
    requires Inv(db) && Unopposed(db, input) && FreshIds(db, At(n))
    ensures change == Insert(n, Row(input, n), Some(Entry(n, JournalFor(input, n))), KeepHold, None)
    ensures ChangeOk(db, change) && LeadsTo(db, Apply(db, change))
  {
    change := Committed(db, Record(input), At(n));
    StepLeads(db, Record(input), At(n), change);
    PostedRequest(db, input, n);
  }

  // One more posted request.
  lemma Posts100(db: DB, input: RecordInput, n: nat, ada: int, bola: int) returns (next: DB)
    requires Inv(db) && Stand(db, n, ada, bola) && Unopposed(db, input) && input.key == n + 1
    ensures LeadsTo(db, next) && Stand(next, n + 1, ada + Delta(input, Ada), bola + Delta(input, Bola))
    ensures Recorded(next, input, n + 1)
    ensures forall k: nat, was | k <= n && Recorded(db, was, k) :: Recorded(next, was, k)
  {
    var change := PostedCommits(db, input, n + 1);
    next := Apply(db, change);
    PostedStand(db, input, n, ada, bola, change, next);
  }

  lemma PostedBooks(db: DB, input: RecordInput, n: nat, change: Change)
    requires AccountsOk(db) && Books(db, n, 0) && 0 !in db.transfers && db.reversals == map[] && input.key == n + 1
    requires input.direction != Reversal
    requires change == Insert(n + 1, Row(input, n + 1), Some(Entry(n + 1, JournalFor(input, n + 1))), KeepHold, None)
    requires Apply(db, change).balances.Keys == db.balances.Keys
    ensures Books(Apply(db, change), n + 1, 0) && 0 !in Apply(db, change).transfers
    ensures Apply(db, change).reversals == map[]
    ensures Recorded(Apply(db, change), input, n + 1)
    ensures forall k: nat, was | k <= n && Recorded(db, was, k) :: Recorded(Apply(db, change), was, k)
  {
  }

  // After the spree, before the reversal.
  predicate Spent(db: DB) {
    Stand(db, 3, 0, 0) && Recorded(db, AdaToBola, 2)
  }

  lemma UndoCounterparty(db: DB)
    requires Spent(db)
    ensures Counterparty(db, db.transfers[2]) == Some(Bola)
  {
    var ps := JournalFor(AdaToBola, 2).postings;
    assert ps[1..] == [ps[1]] && ps[1..][1..] == [];
    assert Others(ps[1..], Ada) == [ps[1]];
  }

  lemma UndoRecords(db: DB, record: RecordInput)
    requires Spent(db) && record == ReversalInput(Row(AdaToBola, 2), Bola, UndoAdaToBola)
    ensures record.account == Ada && record.clearing == Bola && record.direction == Inbound
    ensures var reply := RecordTransfer(db, record, At(4)).reply;
            reply.Done? && reply.change.Insert? && reply.id == 4 && reply.change.id == 4
            && reply.change.row.ledgerStatus == Posted && reply.change.row.reconciliation == Matched
            && reply.change.row.reversalOf == Some(2) && reply.change.row.amount == 100
            && reply.change.entry == Some(Entry(4, JournalFor(record, 4)))
  {
  }

  lemma UndoDebitsBola(db: DB)
    requires Spent(db)
    ensures FreshIds(db, At(4))
    ensures var change := Committed(db, Reverse(UndoAdaToBola), At(4));
            && change.Insert? && change.id == 4 && change.row.reversalOf == Some(2) && change.row.amount == 100
            && change.row.ledgerStatus == Posted && change.row.reconciliation == Matched
            && Debited(change) == Some(Bola) && Credited(change) == Some(Ada)
  {
    UndoCounterparty(db);
    UndoRecords(db, ReversalInput(db.transfers[2], Bola, UndoAdaToBola));
  }

  // A customer without overdraft stands below zero although every transfer is posted and matched.
  predicate Unflagged(db: DB, a: AccountId) {
    && a in db.accounts && Restricted(db.accounts[a]) && a in db.balances && db.balances[a].ledger == -100
    && forall id | id in db.transfers :: PostedAndMatched(db.transfers[id])
  }

  const BolaBelow: DB -> bool := db => Unflagged(db, Bola)

  lemma Undone(db: DB, change: Change)
    requires Inv(db) && Spent(db) && ChangeOk(db, change)
    requires change.Insert? && change.id == 4 && change.row.amount == 100 && PostedAndMatched(change.row)
    requires Debited(change) == Some(Bola) && Credited(change) == Some(Ada)
    ensures Unflagged(Apply(db, change), Bola)
  {
    CustomerMoves(db, change, Bola);
  }

  lemma SpentCanOverdraw(db: DB)
    requires Inv(db) && Spent(db)
    ensures CanReach(db, BolaBelow)
  {
    UndoDebitsBola(db);
    CommittedOk(db, Reverse(UndoAdaToBola), At(4));
    Undone(db, Committed(db, Reverse(UndoAdaToBola), At(4)));
    ReachedHere(Step(db, Reverse(UndoAdaToBola), At(4)), BolaBelow);
    ReachedBefore(db, Reverse(UndoAdaToBola), At(4), BolaBelow);
  }

  /** A run from empty books leaves a customer without overdraft below zero with every
      transfer posted and matched: Ada pays Bola, Bola spends, the payment is undone, and
      only Ada's side is checked. */
  lemma UnflaggedOverdraft()
    ensures Initial(Opening) && CanReach(Opening, BolaBelow)
  {
    OpeningInv();
    var funded := AdaFunded();
    var sent := Paid(funded);
    var spent := SpentOn(sent);
    SpentCanOverdraw(spent);
  }

  lemma AdaFunded() returns (next: DB)
    ensures LeadsTo(Opening, next) && Stand(next, 1, 100, 0) && Recorded(next, CreditAda, 1)
  {
    OpeningInv();
    next := Posts100(Opening, CreditAda, 0, 0, 0);
  }

  lemma Paid(db: DB) returns (next: DB)
    requires Inv(db) && Stand(db, 1, 100, 0)
    ensures LeadsTo(db, next) && Stand(next, 2, 0, 100) && Recorded(next, AdaToBola, 2)
  {
    next := Posts100(db, AdaToBola, 1, 100, 0);
  }

  lemma SpentOn(db: DB) returns (next: DB)
    requires Inv(db) && Stand(db, 2, 0, 100) && Recorded(db, AdaToBola, 2)
    ensures LeadsTo(db, next) && Spent(next)
  {
    next := Posts100(db, BolaSpends, 2, 0, 100);
  }

  // ---- an inbound transfer undone while its money is held -----------------------------------

  const HoldAda: RecordInput := Move(Ada, Settlement, Outbound, Pending, 2)
  const UndoCredit: ReverseInput := ReverseInput(1, 3, None, Blank, None, Blank)
  const CompleteAda: Op := Complete(2, Move(Ada, Settlement, Outbound, Succeeded, 2))

  predicate AdaHeld(db: DB) {
    && 2 in db.transfers && ActiveHold(db, 2)
    && var row := db.transfers[2];
       && row.account == Ada && row.direction == Outbound && row.status == Pending && row.amount == 100
       && row.reconciliation == ReconciliationPending
       && row.currency == NGN && row.provider == External(0) && row.fingerprint == FingerprintOf(HoldAda)
  }

  // A change that holds 100 of Ada's money for transfer 2.
  predicate PutsOnHold(change: Change) {
    && change.Insert? && change.id == 2 && change.entry.None? && change.hold == CreateHold && change.event.None?
    && var row := change.row;
       && row.account == Ada && row.direction == Outbound && row.status == Pending && row.amount == 100 && row.key == 2
       && row.reconciliation == ReconciliationPending
       && row.currency == NGN && row.provider == External(0) && row.fingerprint == FingerprintOf(HoldAda)
  }

  lemma HoldCommits(db: DB, change: Change)
    requires Stand(db, 1, 100, 0) && change == Committed(db, Record(HoldAda), At(2))
    ensures PutsOnHold(change)
  {
  }

  lemma HoldsAda(db: DB, change: Change)
    requires Stand(db, 1, 100, 0) && Recorded(db, CreditAda, 1) && PutsOnHold(change)
    ensures var next := Apply(db, change);
            && Books(next, 2, 2) && Has(next, Ada, 0, 100)
            && Recorded(next, CreditAda, 1) && next.reversals == map[] && AdaHeld(next)
  {
  }

  lemma CreditCounterparty(db: DB)
    requires Recorded(db, CreditAda, 1)
    ensures Counterparty(db, db.transfers[1]) == Some(Settlement)
  {
    var ps := JournalFor(CreditAda, 1).postings;
    assert ps[1..] == [ps[1]] && ps[1..][1..] == [];
    assert Others(ps[1..], Ada) == [];
  }

  lemma UndoCreditRecords(db: DB, record: RecordInput)
    requires Books(db, 2, 2) && Has(db, Ada, 0, 100)
    requires record == ReversalInput(Row(CreditAda, 1), Settlement, UndoCredit)
    ensures record.account == Ada && record.clearing == Settlement && record.direction == Outbound
    ensures var reply := RecordTransfer(db, record, At(3)).reply;
            reply.Done? && reply.change.Insert? && reply.id == 3 && reply.change.id == 3
            && PostedAndMatched(reply.change.row) && reply.change.row.reversalOf == Some(1)
            && reply.change.row.amount == 100 && reply.change.row.account == Ada && reply.change.row.key == 3
            && reply.change.entry == Some(Entry(3, JournalFor(record, 3))) && reply.change.hold == KeepHold
  {
  }

  // A posted and matched reversal of 100 from Ada to the settlement account, under the id 3.
  predicate TakesBack(change: Change) {
    && change.Insert? && change.id == 3 && PostedAndMatched(change.row) && change.row.key == 3
    && change.row.amount == 100 && change.hold == KeepHold
    && Debited(change) == Some(Ada) && Credited(change) == Some(Settlement)
    && change.entry.Some? && change.entry.value.id == 3
  }

  // Undoing the credit is not flagged: the ledger still covers it, though the hold took it.
  lemma UndoDebitsAda(db: DB, change: Change)
    requires Books(db, 2, 2) && Has(db, Ada, 0, 100) && Recorded(db, CreditAda, 1) && db.reversals == map[]
    requires change == Committed(db, Reverse(UndoCredit), At(3))
    ensures TakesBack(change)
  {
    CreditCounterparty(db);
    UndoCreditRecords(db, ReversalInput(db.transfers[1], Settlement, UndoCredit));
  }

  lemma UndoLeaves(db: DB, change: Change)
    requires Inv(db) && Books(db, 2, 2) && Has(db, Ada, 0, 100) && AdaHeld(db) && ChangeOk(db, change)
    requires TakesBack(change)
    ensures Books(Apply(db, change), 3, 2) && Has(Apply(db, change), Ada, -100, 0) && AdaHeld(Apply(db, change))
  {
    TransferMovesCustomer(db, change, Ada);
    MovedBalance(db, change.id, change.row, change.entry, change.hold, Ada);
  }

  // The completion that follows is an ordinary one.
  lemma CompletesHold(db: DB, change: Change)
    requires Books(db, 3, 2) && AdaHeld(db) && change == Committed(db, CompleteAda, At(4))
    ensures change.Advance? && change.id == 2 && PostedAndMatched(change.row)
    ensures change.row.account == Ada && change.row.amount == 100
    ensures Debited(change) == Some(Ada) && Credited(change) == Some(Settlement) && ConsumesHoldOf(change, Ada)
  {
  }

  const AdaBelow: DB -> bool := db => Unflagged(db, Ada)

  // A plain completion is about to debit Ada, who is below zero already.
  const AdaDebitedInDeficit: DB -> bool := db =>
    BelowZero(db, Ada) && Admissible(db, CompleteAda, At(4)) && Debited(Committed(db, CompleteAda, At(4))) == Some(Ada)

  lemma CompletionLeaves(db: DB, change: Change)
    requires Inv(db) && Books(db, 3, 2) && Has(db, Ada, -100, 0) && ChangeOk(db, change)
    requires change.Advance? && change.id == 2 && PostedAndMatched(change.row) && change.row.amount == 100
    requires Debited(change) == Some(Ada) && Credited(change) == Some(Settlement)
    ensures Unflagged(Apply(db, change), Ada)
  {
    TransferMovesCustomer(db, change, Ada);
  }

  lemma HoldLeads(db: DB) returns (change: Change)
    requires Inv(db) && Stand(db, 1, 100, 0)
    ensures PutsOnHold(change) && LeadsTo(db, Apply(db, change))
  {
    change := Committed(db, Record(HoldAda), At(2));
    HoldCommits(db, change);
    HoldAdmitted(db);
    StepLeads(db, Record(HoldAda), At(2), change);
  }

  lemma HoldAdmitted(db: DB)
    requires Stand(db, 1, 100, 0)
    ensures Admissible(db, Record(HoldAda), At(2)) && ClearingInternal(db, Record(HoldAda))
  {
  }

  lemma Held(db: DB) returns (next: DB)
    requires Inv(db) && Stand(db, 1, 100, 0) && Recorded(db, CreditAda, 1)
    ensures LeadsTo(db, next) && Books(next, 2, 2) && Has(next, Ada, 0, 100)
    ensures Recorded(next, CreditAda, 1) && next.reversals == map[] && AdaHeld(next)
  {
    var change := HoldLeads(db);
    HoldsAda(db, change);
    next := Apply(db, change);
  }

  lemma UndoneHeld(db: DB) returns (next: DB)
    requires Inv(db) && Books(db, 2, 2) && Has(db, Ada, 0, 100)
    requires Recorded(db, CreditAda, 1) && db.reversals == map[] && AdaHeld(db)
    ensures LeadsTo(db, next) && Books(next, 3, 2) && Has(next, Ada, -100, 0) && AdaHeld(next)
  {
    var change := UndoCommits(db);
    next := Apply(db, change);
    UndoLeaves(db, change);
  }

  lemma UndoAdmitted(db: DB)
    requires Books(db, 2, 2)
    ensures Admissible(db, Reverse(UndoCredit), At(3)) && ClearingInternal(db, Reverse(UndoCredit))
  {
  }

  lemma UndoCommits(db: DB) returns (change: Change)
    requires Inv(db) && Books(db, 2, 2) && Has(db, Ada, 0, 100) && Recorded(db, CreditAda, 1) && db.reversals == map[]
    ensures TakesBack(change) && ChangeOk(db, change) && LeadsTo(db, Apply(db, change))
  {
    change := Committed(db, Reverse(UndoCredit), At(3));
    UndoDebitsAda(db, change);
    UndoAdmitted(db);
    StepLeads(db, Reverse(UndoCredit), At(3), change);
  }

  lemma CompletionLeads(db: DB) returns (change: Change)
    requires Inv(db) && Books(db, 3, 2) && Has(db, Ada, -100, 0) && AdaHeld(db)
    ensures ChangeOk(db, change) && LeadsTo(db, Apply(db, change)) && AdaDebitedInDeficit(db)
    ensures change.Advance? && change.id == 2 && PostedAndMatched(change.row) && change.row.amount == 100
    ensures Debited(change) == Some(Ada) && Credited(change) == Some(Settlement)
  {
    change := Committed(db, CompleteAda, At(4));
    CompletesHold(db, change);
    StepLeads(db, CompleteAda, At(4), change);
  }

  lemma Completed(db: DB) returns (next: DB)
    requires Inv(db) && Books(db, 3, 2) && Has(db, Ada, -100, 0) && AdaHeld(db)
    ensures LeadsTo(db, next) && Unflagged(next, Ada) && AdaDebitedInDeficit(db)
  {
    var change := CompletionLeads(db);
    CompletionLeaves(db, change);
    next := Apply(db, change);
  }

  /** A second way there, undoing an inbound transfer: Ada is credited, all of it is held for a
      pending payment, and the credit is undone, which the ledger still covers. Completing
      the payment then debits an account below zero, and leaves its ledger at -100 with
      every transfer posted and matched. */
  lemma UndoneWhileHeld()
    ensures CanReach(Opening, AdaBelow) && CanReach(Opening, AdaDebitedInDeficit)
  {
    var funded := AdaFunded();
    var held := Held(funded);
    var undone := UndoneHeld(held);
    var completed := Completed(undone);
    ReachedHere(completed, AdaBelow);
    ReachedHere(undone, AdaDebitedInDeficit);
  }

  // ---- an answer that says unknown in the wrong place -----------------------------------------

  // The status says unknown, the provider status says succeeded.
  const Garbage: Provider.ProviderResult :=
    Provider.ProviderResult(None, Blank, None, ProviderUnknown, Succeeded, Blank)

  const CompleteGarbled: Op := Complete(2, Provider.CompletionInput(HoldAda, Garbage))

  // Ada's payment is pending, with no one told to review it, and completing it is refused.
  const GarbledUnreviewed: DB -> bool := db =>
    && AdaHeld(db) && Provider.NamesUnknown(Garbage)
    && Exec(db, CompleteGarbled, At(3)).reply == Fail(InvalidRequest)

  lemma HeldGarbled(db: DB)
    requires Books(db, 2, 2) && AdaHeld(db)
    ensures GarbledUnreviewed(db)
  {
  }

  /** An explicit run after which the provider's answer names an unknown outcome, and the
      transfer is still labelled an ordinary pending one. */
  lemma GarbledNotReviewed()
    ensures CanReach(Opening, GarbledUnreviewed)
  {
    var funded := AdaFunded();
    var held := Held(funded);
    HeldGarbled(held);
    ReachedHere(held, GarbledUnreviewed);
  }
}
