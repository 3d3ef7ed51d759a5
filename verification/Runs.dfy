/** What every run of admissible transactions guarantees. */
module Runs {
  import opened Types
  import opened Ledger
  import opened Steps
  import opened Sums
  import opened Invariant
  import opened Preservation
  import opened Decisions

  // Accounts at zero and nothing else.
  predicate Initial(db: DB) {
    && AccountsOk(db)
    && (forall a | a in db.balances :: db.balances[a].available == 0 && db.balances[a].ledger == 0)
    && db.journals == map[] && db.transfers == map[] && db.byKey == map[] && db.holds == map[]
    && db.liens == map[] && db.events == map[] && db.reversals == map[]
  }

  lemma InitialInv(db: DB)
    requires Initial(db)
    ensures Inv(db)
  {
    forall a | a in db.accounts ensures MoneyAt(db, a) {
    }
  }

  lemma {:induction false} RunKeepsInv(db: DB, calls: seq<Call>)
    requires Inv(db) && AdmissibleRun(db, calls)
    ensures Inv(Run(db, calls))
    decreases |calls|
  {
    if calls != [] {
      StepKeepsInv(db, calls[0].op, calls[0].env);
      RunKeepsInv(Step(db, calls[0].op, calls[0].env), calls[1..]);
    }
  }

  /** In every reachable state each account's ledger is the signed sum of its
      postings, and its available balance is that less its active holds and liens. */
  lemma BalancesReconcile(db: DB, calls: seq<Call>, a: AccountId)
    requires Initial(db) && AdmissibleRun(db, calls)
    requires a in Run(db, calls).accounts
    ensures var now := Run(db, calls);
            && a in now.balances
            && now.balances[a].ledger == Sum(now.journals, Effect(a, now.accounts[a].normal))
            && now.balances[a].available
               == now.balances[a].ledger - Sum(now.holds, ActiveOn(a)) - Sum(now.liens, ActiveOn(a))
  {
    InitialInv(db);
    RunKeepsInv(db, calls);
    assert MoneyAt(Run(db, calls), a);
  }

  // ---- trial balance -----------------------------------------------------------

  // An account's ledger, debits positive.
  ghost function DebitLedger(db: DB): (AccountId, Account) -> int {
    (a: AccountId, account: Account) =>
      if a in db.balances then Signed(account.normal, Debit, db.balances[a].ledger) else 0
  }

  ghost function DebitEffect(journals: map<JournalId, Journal>): (AccountId, Account) -> int {
    (a: AccountId, account: Account) => Sum(journals, Effect(a, Debit))
  }

  ghost function DebitEntry(journal: Journal): (AccountId, Account) -> int {
    (a: AccountId, account: Account) => PostingsEffect(journal.postings, a, Debit)
  }

  lemma {:induction false} OppositeSides(journals: map<JournalId, Journal>, a: AccountId)
    ensures Sum(journals, Effect(a, Credit)) == -Sum(journals, Effect(a, Debit))
    decreases |journals|
  {
    var none: (JournalId, Journal) -> int := (j, journal) => 0;
    forall j | j in journals
      ensures none(j, journals[j]) == Effect(a, Credit)(j, journals[j]) + Effect(a, Debit)(j, journals[j])
    {
      OppositePostings(journals[j].postings, a);
    }
    SumPlus(journals, Effect(a, Credit), Effect(a, Debit), none);
    SumZero(journals, none);
  }

  lemma {:induction false} OppositePostings(postings: seq<Posting>, a: AccountId)
    ensures PostingsEffect(postings, a, Credit) == -PostingsEffect(postings, a, Debit)
  {
    if postings != [] { OppositePostings(postings[..|postings| - 1], a); }
  }

  // A function that is nothing outside two accounts sums to its values there.
  lemma TwoTerms(accounts: map<AccountId, Account>, f: (AccountId, Account) -> int, x: AccountId, y: AccountId)
    requires x in accounts && y in accounts && x != y
    requires forall a | a in accounts && a != x && a != y :: f(a, accounts[a]) == 0
    ensures Sum(accounts, f) == f(x, accounts[x]) + f(y, accounts[y])
  {
    SumOpen(accounts, f, x);
    SumOpen(accounts - {x}, f, y);
    SumZero(accounts - {x} - {y}, f);
  }

  lemma OneJournalCancels(accounts: map<AccountId, Account>, journal: Journal)
    requires Balanced(journal) && journal.postings[0].account in accounts && journal.postings[1].account in accounts
    ensures Sum(accounts, DebitEntry(journal)) == 0
  {
    forall a ensures PostingsEffect(journal.postings, a, Debit)
      == (if a == journal.postings[0].account then journal.amount
          else if a == journal.postings[1].account then -journal.amount else 0)
    {
      PairEffect(journal, a, Debit);
    }
    TwoTerms(accounts, DebitEntry(journal), journal.postings[0].account, journal.postings[1].account);
  }

  // Every journal adds nothing to the total over all accounts.
  lemma {:induction false} JournalsCancel(accounts: map<AccountId, Account>, journals: map<JournalId, Journal>)
    requires forall j | j in journals ::
      Balanced(journals[j]) && journals[j].postings[0].account in accounts
        && journals[j].postings[1].account in accounts
    ensures Sum(accounts, DebitEffect(journals)) == 0
    decreases |journals|
  {
    if journals == map[] {
      SumZero(accounts, DebitEffect(journals));
    } else {
      var j :| j in journals;
      var rest := journals - {j};
      JournalsCancel(accounts, rest);
      OneJournalCancels(accounts, journals[j]);
      forall a | a in accounts
        ensures DebitEffect(journals)(a, accounts[a])
          == DebitEffect(rest)(a, accounts[a]) + DebitEntry(journals[j])(a, accounts[a])
      {
        SumOpen(journals, Effect(a, Debit), j);
      }
      SumPlus(accounts, DebitEffect(rest), DebitEntry(journals[j]), DebitEffect(journals));
    }
  }

  lemma DebitLedgerIs(db: DB, a: AccountId)
    requires AccountsOk(db) && a in db.accounts && MoneyAt(db, a)
    ensures DebitLedger(db)(a, db.accounts[a]) == Sum(db.journals, Effect(a, Debit))
  {
    var normal, ledger := db.accounts[a].normal, db.balances[a].ledger;
    assert ledger == Sum(db.journals, Effect(a, normal));
    assert DebitLedger(db)(a, db.accounts[a]) == Signed(normal, Debit, ledger);
    if normal == Credit {
      OppositeSides(db.journals, a);
    } else {
      assert normal == Debit;
    }
  }

  /** Trial balance: over all accounts, debit-normal ledgers less credit-normal ledgers is zero. */
  lemma TrialBalance(db: DB)
    requires Inv(db)
    ensures Sum(db.accounts, DebitLedger(db)) == 0
  {
    forall j | j in db.journals
      ensures Balanced(db.journals[j]) && db.journals[j].postings[0].account in db.accounts
              && db.journals[j].postings[1].account in db.accounts
    {
      assert JournalOk(db, j);
    }
    JournalsCancel(db.accounts, db.journals);
    forall a | a in db.accounts
      ensures DebitLedger(db)(a, db.accounts[a]) == DebitEffect(db.journals)(a, db.accounts[a])
    {
      assert MoneyAt(db, a);
      DebitLedgerIs(db, a);
    }
    SumSame(db.accounts, DebitLedger(db), DebitEffect(db.journals));
  }

  // ---- what only grows ------------------------------------------------------------

  predicate Final(row: Transfer) {
    row.status != Pending
  }

  // A final row and its hold never change again; a pending one keeps its identity.
  predicate RowEvolves(db: DB, next: DB, id: TransferId)
    requires id in db.transfers
  {
    && id in next.transfers
    && SameIdentity(db.transfers[id], next.transfers[id])
    && (Final(db.transfers[id]) ==>
        next.transfers[id] == db.transfers[id] && Find(next.holds, id) == Find(db.holds, id))
    && (id in db.holds ==>
        && id in next.holds && next.holds[id].account == db.holds[id].account
        && next.holds[id].amount == db.holds[id].amount)
  }

  // Tables other than transfers, holds and accounts, which only gain rows.
  predicate Grows(db: DB, next: DB) {
    && (forall k | k in db.byKey :: k in next.byKey && next.byKey[k] == db.byKey[k])
    && (forall e | e in db.events :: e in next.events && next.events[e] == db.events[e])
    && (forall j | j in db.journals :: j in next.journals && next.journals[j] == db.journals[j])
    && (forall o | o in db.reversals :: o in next.reversals && next.reversals[o] == db.reversals[o])
  }

  // A lien keeps its account and amount, and only ever goes from active to released.
  predicate LienEvolves(db: DB, next: DB, l: LienId)
    requires l in db.liens
  {
    && l in next.liens
    && (next.liens[l] == db.liens[l]
        || (db.liens[l].status == Active && next.liens[l] == db.liens[l].(status := Released)))
  }

  predicate Evolves(db: DB, next: DB) {
    && (forall l {:trigger LienEvolves(db, next, l)} | l in db.liens :: LienEvolves(db, next, l))
    && (forall id {:trigger RowEvolves(db, next, id)} | id in db.transfers :: RowEvolves(db, next, id))
    && Grows(db, next)
    && (forall a | a in db.accounts ::
        a in next.accounts && next.accounts[a] == db.accounts[a].(status := next.accounts[a].status))
  }

  lemma EvolvesTransitive(a: DB, b: DB, c: DB)
    requires Evolves(a, b) && Evolves(b, c)
    ensures Evolves(a, c)
  {
    forall id | id in a.transfers ensures RowEvolves(a, c, id) {
      assert RowEvolves(a, b, id) && RowEvolves(b, c, id);
    }
    forall l | l in a.liens ensures LienEvolves(a, c, l) {
      assert LienEvolves(a, b, l) && LienEvolves(b, c, l);
    }
  }

  lemma ApplyGrows(db: DB, change: Change)
    requires RowsOk(db) && ChangeOk(db, change)
    ensures Grows(db, Apply(db, change))
  {
    if change.Advance? { assert RowOk(db, change.id); }
  }

  lemma TransferEvolves(db: DB, next: DB, id: TransferId, row: Transfer, hold: HoldAction, i: TransferId)
    requires db.holds.Keys <= db.transfers.Keys && i in db.transfers
    requires next.transfers == db.transfers[id := row]
    requires next.holds == ApplyHold(db.holds, id, row, hold)
    requires id in db.transfers ==>
      db.transfers[id].status == Pending && SameIdentity(db.transfers[id], row) && hold != CreateHold
    ensures RowEvolves(db, next, i)
  {
  }

  lemma ApplyEvolves(db: DB, change: Change)
    requires RowsOk(db) && HoldsOk(db) && ChangeOk(db, change)
    ensures Evolves(db, Apply(db, change))
  {
    var next := Apply(db, change);
    HoldsHaveTransfers(db);
    ApplyGrows(db, change);
    forall id | id in db.transfers ensures RowEvolves(db, next, id) {
      if change.Insert? || change.Advance? {
        TransferEvolves(db, next, change.id, change.row, change.hold, id);
      }
    }
    forall l | l in db.liens ensures LienEvolves(db, next, l) {}
  }

  lemma StepEvolves(db: DB, op: Op, env: Env)
    requires Inv(db) && Admissible(db, op, env)
    ensures Evolves(db, Step(db, op, env)) && Inv(Step(db, op, env))
  {
    CommittedOk(db, op, env);
    ApplyEvolves(db, Committed(db, op, env));
    StepKeepsInv(db, op, env);
  }

  lemma {:induction false} RunEvolves(db: DB, calls: seq<Call>)
    requires Inv(db) && AdmissibleRun(db, calls)
    ensures Evolves(db, Run(db, calls)) && Inv(Run(db, calls))
    decreases |calls|
  {
    if calls == [] {
      forall id | id in db.transfers ensures RowEvolves(db, db, id) {}
      forall l | l in db.liens ensures LienEvolves(db, db, l) {}
    } else {
      var next := Step(db, calls[0].op, calls[0].env);
      StepEvolves(db, calls[0].op, calls[0].env);
      RunEvolves(next, calls[1..]);
      EvolvesTransitive(db, next, Run(db, calls));
    }
  }

  /** In every reachable state the status columns of a transfer agree: matched means posted,
      no action means failed, posted without a deficit means matched, an unknown provider
      outcome is never posted and always up for review, and deficits belong to reversals. */
  lemma StatusColumnsAgree(db: DB, calls: seq<Call>, id: TransferId)
    requires Initial(db) && AdmissibleRun(db, calls) && id in Run(db, calls).transfers
    ensures var row := Run(db, calls).transfers[id];
            && (row.reconciliation == Matched <==> row.status == Succeeded && row.ledgerStatus == Posted)
            && (row.reconciliation == NoAction ==> row.status == Failed && row.ledgerStatus == NoPosting)
            && (row.reconciliation == ReconciliationPending ==>
                row.status == Pending && row.ledgerStatus == LedgerPending)
            && (row.ledgerStatus == ReversalDeficit ==>
                  row.status == Succeeded && row.reconciliation == ManualReview && row.direction == Reversal)
            && (row.providerStatus == ProviderUnknown ==> row.journal.None? && row.reconciliation == ManualReview)
  {
    InitialInv(db);
    RunKeepsInv(db, calls);
    assert RowOk(Run(db, calls), id);
  }

  /** Once final, always final: the row, its hold and its journal are the same ever after. */
  lemma FinalForever(db: DB, calls: seq<Call>, id: TransferId)
    requires Inv(db) && AdmissibleRun(db, calls) && id in db.transfers && Final(db.transfers[id])
    ensures var later := Run(db, calls);
            && id in later.transfers && later.transfers[id] == db.transfers[id]
            && Find(later.holds, id) == Find(db.holds, id)
            && (db.transfers[id].status == Succeeded ==>
                Posts(db, id) && Posts(later, id) && JournalOf(later, id) == JournalOf(db, id))
  {
    RunEvolves(db, calls);
    assert RowEvolves(db, Run(db, calls), id) && RowOk(db, id);
  }
}
