/** Holding money first and deciding later: what the two steps amount to together. */
module Phases {
  import opened Types
  import opened Ledger
  import opened Transfers
  import opened Steps
  import opened Invariant
  import opened Preservation
  import opened Decisions
  import opened Funds
  import opened Runs
  import opened ExactlyOnce

  // A change that opens a hold for a pending transfer.
  predicate Holds(change: Change) {
    change.Insert? && change.row.status == Pending && HoldsFunds(change.row)
  }

  predicate Finishes(change: Change, id: TransferId, status: Status) {
    change.Advance? && change.id == id && change.row.status == status && HoldsFunds(change.row)
  }

  // Two changes that post the same movement.
  predicate SamePostings(x: Change, y: Change) {
    && (x.Insert? || x.Advance?) && (y.Insert? || y.Advance?)
    && x.entry.Some? && y.entry.Some?
    && x.entry.value.journal.postings == y.entry.value.journal.postings
    && x.row.account == y.row.account && x.row.amount == y.row.amount
  }

  // One account's two balances moved by this much.
  predicate BalanceMoved(db: DB, next: DB, a: AccountId, ledger: int, available: int) {
    && a in db.balances && a in next.balances
    && next.balances[a].ledger == db.balances[a].ledger + ledger
    && next.balances[a].available == db.balances[a].available + available
  }

  lemma HeldBalance(db: DB, begin: Change, next: DB, a: AccountId)
    requires Inv(db) && ChangeOk(db, begin) && Holds(begin) && next == Apply(db, begin) && a in db.accounts
    ensures BalanceMoved(db, next, a, 0, if a == begin.row.account then -begin.row.amount else 0)
  {
    ChangeReady(db, begin);
    MovedBalance(db, begin.id, begin.row, begin.entry, begin.hold, a);
  }

  lemma FinishedBalance(db: DB, finish: Change, next: DB, a: AccountId)
    requires Inv(db) && ChangeOk(db, finish) && finish.Advance? && Finishes(finish, finish.id, Succeeded)
    requires next == Apply(db, finish) && a in db.accounts
    ensures BalanceMoved(db, next, a, EntryEffect(db, finish.entry, a),
                         if a == finish.row.account then 0 else EntryEffect(db, finish.entry, a))
  {
    ChangeReady(db, finish);
    MovedBalance(db, finish.id, finish.row, finish.entry, finish.hold, a);
  }

  lemma DirectBalance(db: DB, direct: Change, next: DB, a: AccountId)
    requires Inv(db) && ChangeOk(db, direct) && direct.Insert? && direct.row.status == Succeeded
    requires next == Apply(db, direct) && a in db.accounts
    ensures BalanceMoved(db, next, a, EntryEffect(db, direct.entry, a), EntryEffect(db, direct.entry, a))
  {
    ChangeReady(db, direct);
    MovedBalance(db, direct.id, direct.row, direct.entry, direct.hold, a);
  }

  // A consumed hold's account falls by the amount that was held.
  lemma ConsumedFalls(held: DB, finish: Change)
    requires Inv(held) && ChangeOk(held, finish) && finish.Advance? && Finishes(finish, finish.id, Succeeded)
    ensures finish.row.account in held.accounts
    ensures EntryEffect(held, finish.entry, finish.row.account) == -finish.row.amount
  {
    ChangeReady(held, finish);
    assert PendingHeld(held, finish.id) && HoldOk(held, finish.id);
    OutboundEffect(held, finish.row, finish.entry);
  }

  lemma SameAccounts(db: DB, begin: Change)
    requires begin.Insert?
    ensures Apply(db, begin).accounts == db.accounts
  {
  }

  // The hold and its consumption together: both balances move by the entry.
  lemma HeldThenDone(db: DB, begin: Change, held: DB, finish: Change, done: DB, a: AccountId)
    requires begin.Insert? && finish.Advance? && a in held.accounts
    requires BalanceMoved(db, held, a, 0, if a == begin.row.account then -begin.row.amount else 0)
    requires BalanceMoved(held, done, a, EntryEffect(held, finish.entry, a),
                          if a == finish.row.account then 0 else EntryEffect(held, finish.entry, a))
    requires a == finish.row.account ==> EntryEffect(held, finish.entry, a) == -finish.row.amount
    requires finish.row.account == begin.row.account && finish.row.amount == begin.row.amount
    ensures BalanceMoved(db, done, a, EntryEffect(held, finish.entry, a), EntryEffect(held, finish.entry, a))
  {
  }

  // Holding and then succeeding moves every balance by the entry.
  lemma FinishMoves(db: DB, begin: Change, held: DB, finish: Change, done: DB, a: AccountId)
    requires Inv(db) && ChangeOk(db, begin) && Holds(begin) && held == Apply(db, begin) && Inv(held)
    requires ChangeOk(held, finish) && Finishes(finish, begin.id, Succeeded) && done == Apply(held, finish)
    requires finish.row.account == begin.row.account && finish.row.amount == begin.row.amount
    requires held.accounts == db.accounts && a in db.accounts
    ensures BalanceMoved(db, done, a, EntryEffect(held, finish.entry, a), EntryEffect(held, finish.entry, a))
  {
    HeldBalance(db, begin, held, a);
    FinishedBalance(held, finish, done, a);
    ConsumedFalls(held, finish);
    HeldThenDone(db, begin, held, finish, done, a);
  }

  predicate SameBalances(x: DB, y: DB, a: AccountId) {
    && a in x.balances && a in y.balances
    && x.balances[a].ledger == y.balances[a].ledger && x.balances[a].available == y.balances[a].available
  }

  lemma SameEffect(db: DB, held: DB, finish: Change, direct: Change, a: AccountId)
    requires SamePostings(finish, direct) && a in db.accounts && held.accounts == db.accounts
    ensures EntryEffect(held, finish.entry, a) == EntryEffect(db, direct.entry, a)
  {
  }

  // Balances that moved by the same postings are the same.
  lemma MovedAlike(db: DB, held: DB, finish: Change, done: DB, direct: Change, posted: DB, a: AccountId)
    requires SamePostings(finish, direct) && a in db.accounts && held.accounts == db.accounts
    requires BalanceMoved(db, done, a, EntryEffect(held, finish.entry, a), EntryEffect(held, finish.entry, a))
    requires BalanceMoved(db, posted, a, EntryEffect(db, direct.entry, a), EntryEffect(db, direct.entry, a))
    ensures SameBalances(done, posted, a)
  {
    SameEffect(db, held, finish, direct, a);
  }

  // Holding and then succeeding moves every balance by the entry.
  lemma DoneMoves(db: DB, begin: Change, held: DB, finish: Change, done: DB, a: AccountId)
    requires Inv(db) && ChangeOk(db, begin) && Holds(begin) && held == Apply(db, begin) && Inv(held)
    requires ChangeOk(held, finish) && Finishes(finish, begin.id, Succeeded) && done == Apply(held, finish)
    requires a in db.accounts
    ensures held.accounts == db.accounts
    ensures BalanceMoved(db, done, a, EntryEffect(held, finish.entry, a), EntryEffect(held, finish.entry, a))
  {
    SameAccounts(db, begin);
    SameHolder(db, begin, held, finish);
    FinishMoves(db, begin, held, finish, done, a);
  }

  // What a finished transfer was held for.
  lemma SameHolder(db: DB, begin: Change, held: DB, finish: Change)
    requires begin.Insert? && held == Apply(db, begin) && ChangeOk(held, finish)
    requires finish.Advance? && finish.id == begin.id
    ensures finish.row.account == begin.row.account && finish.row.amount == begin.row.amount
  {
  }

  // All that is known of what a money request commits.
  lemma Decided(db: DB, op: Op, env: Env, change: Change, next: DB)
    requires Inv(db) && Admissible(db, op, env) && Sourced(db, op)
    requires change == Committed(db, op, env) && next == Apply(db, change)
    ensures ChangeOk(db, change) && Vetted(db, change, Source(db, op)) && Inv(next)
  {
    CommittedOk(db, op, env);
    StepVetted(db, op, env);
    StepKeepsInv(db, op, env);
  }

  // The same request, finished or recorded outright, posts the same.
  lemma BothPost(held: DB, finish: Change, done: RecordInput, db: DB, direct: Change, outright: RecordInput)
    requires Vetted(held, finish, done) && Vetted(db, direct, outright)
    requires finish.Advance? && finish.entry.Some? && direct.Insert? && direct.entry.Some?
    requires done.direction == outright.direction && done.amount == outright.amount
    requires done.account == outright.account && done.clearing == outright.clearing
    ensures SamePostings(finish, direct)
  {
  }

  /** Recording a pending outbound transfer and completing it as succeeded leaves every
      account's ledger and available balance where recording it as succeeded at once would. */
  lemma TwoPhasesAsOne(db: DB, intent: RecordInput, begin: Env, c1: Change, held: DB,
                       done: RecordInput, finish: Env, c2: Change,
                       direct: RecordInput, outright: Env, c3: Change, a: AccountId)
    requires Inv(db) && Admissible(db, Record(intent), begin) && Admissible(db, Record(direct), outright)
    requires c1 == Committed(db, Record(intent), begin) && Holds(c1) && held == Apply(db, c1)
    requires Admissible(held, Complete(c1.id, done), finish) && c2 == Committed(held, Complete(c1.id, done), finish)
    requires Finishes(c2, c1.id, Succeeded)
    requires c3 == Committed(db, Record(direct), outright) && c3.Insert? && c3.row.status == Succeeded
    requires direct.direction == Outbound && direct.amount == done.amount
    requires direct.account == done.account && direct.clearing == done.clearing
    requires a in db.accounts
    ensures SameBalances(Apply(held, c2), Apply(db, c3), a)
  {
    Decided(db, Record(intent), begin, c1, held);
    Decided(held, Complete(c1.id, done), finish, c2, Apply(held, c2));
    Decided(db, Record(direct), outright, c3, Apply(db, c3));
    BothPost(held, c2, done, db, c3, direct);
    DoneMoves(db, c1, held, c2, Apply(held, c2), a);
    DirectBalance(db, c3, Apply(db, c3), a);
    MovedAlike(db, held, c2, Apply(held, c2), c3, Apply(db, c3), a);
  }

  lemma ReleaseUndoesHold(db: DB, begin: Change, held: DB, finish: Change)
    requires Inv(db) && ChangeOk(db, begin) && Holds(begin) && held == Apply(db, begin)
    requires ChangeOk(held, finish) && Finishes(finish, begin.id, Failed)
    ensures Apply(held, finish).balances == db.balances && Apply(held, finish).journals == db.journals
    ensures begin.id in Apply(held, finish).holds && Apply(held, finish).holds[begin.id].status == Released
  {
    assert AccountsOk(db);
  }

  /** Recording a pending outbound transfer and then failing it puts every balance back
      exactly as it was, and posts nothing. */
  lemma FailingUndoesHolding(db: DB, intent: RecordInput, begin: Env, held: DB, done: RecordInput, finish: Env)
    requires Inv(db) && Admissible(db, Record(intent), begin)
    requires Holds(Committed(db, Record(intent), begin)) && held == Step(db, Record(intent), begin)
    requires var id := Committed(db, Record(intent), begin).id;
             && Admissible(held, Complete(id, done), finish)
             && Finishes(Committed(held, Complete(id, done), finish), id, Failed)
    ensures var next := Step(held, Complete(Committed(db, Record(intent), begin).id, done), finish);
            next.balances == db.balances && next.journals == db.journals
  {
    var c1 := Committed(db, Record(intent), begin);
    CommittedOk(db, Record(intent), begin);
    StepKeepsInv(db, Record(intent), begin);
    CommittedOk(held, Complete(c1.id, done), finish);
    ReleaseUndoesHold(db, c1, held, Committed(held, Complete(c1.id, done), finish));
  }

  // ---- liens over runs ------------------------------------------------------------------

  predicate LienActive(db: DB, l: LienId) {
    l in db.liens && db.liens[l].status == Active
  }

  // Only a lien release frees a lien.
  lemma FreeingOps(db: DB, op: Op, env: Env)
    requires Inv(db) && Admissible(db, op, env) && Committed(db, op, env).FreeLien?
    ensures op.ReleaseLien? && Committed(db, op, env).lien == op.release.lien
    ensures op.release.lien in db.liens && db.liens[op.release.lien].account == op.release.account
  {
    match op
    case Record(input) => RecordKind(db, input, env);
    case Complete(id, input) => CompleteKind(db, id, input, env);
    case Requery(id, input) => RequeryKind(db, id, input, env);
    case Reverse(input) => ReverseOk(db, input, env);
    case _ =>
  }

  lemma LienFreed(db: DB, change: Change, l: LienId)
    requires ChangeOk(db, change) && LienActive(db, l) && !LienActive(Apply(db, change), l)
    ensures change == FreeLien(l)
  {
  }

  /** A lien stops being active exactly when a release names it and its account. */
  lemma LienEndsIff(db: DB, op: Op, env: Env, l: LienId)
    requires Inv(db) && Admissible(db, op, env) && LienActive(db, l)
    ensures !LienActive(Step(db, op, env), l) <==> op == ReleaseLien(ReleaseInput(db.liens[l].account, l))
  {
    assert LienOk(db, l);
    CommittedOk(db, op, env);
    if !LienActive(Step(db, op, env), l) {
      LienFreed(db, Committed(db, op, env), l);
      FreeingOps(db, op, env);
    }
  }

  ghost function LienEnds(l: LienId): (DB, Op, Env) -> bool {
    (db: DB, op: Op, env: Env) => LienActive(db, l) && !LienActive(Step(db, op, env), l)
  }

  ghost function LienGone(l: LienId): DB -> bool {
    (db: DB) => l in db.liens && db.liens[l].status != Active
  }

  /** Over any run a lien is released at most once. */
  lemma OneLienRelease(db: DB, calls: seq<Call>, l: LienId)
    requires Inv(db) && AdmissibleRun(db, calls)
    ensures Count(db, calls, LienEnds(l)) <= (if LienGone(l)(db) then 0 else 1)
  {
    forall d, e | Evolves(d, e) && LienGone(l)(d) ensures LienGone(l)(e) { assert LienEvolves(d, e, l); }
    forall d, op, env | Inv(d) && Admissible(d, op, env) && LienEnds(l)(d, op, env)
      ensures !LienGone(l)(d) && LienGone(l)(Step(d, op, env))
    {
      StepEvolves(d, op, env);
      assert LienEvolves(d, Step(d, op, env), l);
    }
    CountOnce(db, calls, LienEnds(l), LienGone(l));
  }

  // One available balance moved by this much, and nothing else did.
  predicate MovesAvailable(before: map<AccountId, Balance>, after: map<AccountId, Balance>, a: AccountId, amount: int) {
    a in before && after == before[a := before[a].(available := before[a].available + amount)]
  }

  // What releasing a lien does, whether or not it is still active.
  lemma ReleaseCommits(db: DB, l: LienId, env: Env, change: Change)
    requires AccountsOk(db) && l in db.liens && db.liens[l].account in db.accounts
    requires change == Committed(db, ReleaseLien(ReleaseInput(db.liens[l].account, l)), env)
    ensures change == if LienActive(db, l) then FreeLien(l) else NoChange
  {
  }

  lemma FreeingGivesBack(db: DB, l: LienId, change: Change)
    requires AccountsOk(db) && l in db.liens && db.liens[l].account in db.accounts
    requires change == if LienActive(db, l) then FreeLien(l) else NoChange
    ensures var next := Apply(db, change);
            && MovesAvailable(db.balances, next.balances, db.liens[l].account,
              if LienActive(db, l) then db.liens[l].amount else 0)
            && l in next.liens && next.liens[l].account == db.liens[l].account && !LienActive(next, l)
            && next.accounts == db.accounts && AccountsOk(next)
  {
    var a := db.liens[l].account;
    assert db.balances == db.balances[a := db.balances[a]];
  }

  /** Placing a lien takes its amount, which was there, from one available balance. */
  lemma PlacingTakes(db: DB, input: LienInput, env: Env, placed: DB)
    requires Inv(db) && Committed(db, PlaceLien(input), env).PutLien? && placed == Step(db, PlaceLien(input), env)
    ensures MovesAvailable(db.balances, placed.balances, input.account, -input.amount)
    ensures 0 < input.amount <= db.balances[input.account].available
    ensures LienActive(placed, env.lien) && placed.accounts == db.accounts && input.account in db.accounts
    ensures placed.liens[env.lien].account == input.account && placed.liens[env.lien].amount == input.amount
  {
  }

  lemma LienSurvives(db: DB, calls: seq<Call>, later: DB, l: LienId)
    requires Inv(db) && AdmissibleRun(db, calls) && later == Run(db, calls) && l in db.liens
    ensures Inv(later) && l in later.liens && db.liens[l].account in later.accounts
    ensures later.liens[l].account == db.liens[l].account && later.liens[l].amount == db.liens[l].amount
  {
    RunEvolves(db, calls);
    assert LienEvolves(db, later, l) && LienOk(later, l);
  }

  /** After any run, releasing a lien gives exactly its amount back to that balance if it is
      still active, and changes nothing if it was released meanwhile; releasing it again
      changes nothing. */
  lemma LienGivesBack(db: DB, l: LienId, calls: seq<Call>, later: DB, env: Env, freed: DB, again: Env)
    requires Inv(db) && l in db.liens && AdmissibleRun(db, calls) && later == Run(db, calls)
    requires freed == Step(later, ReleaseLien(ReleaseInput(db.liens[l].account, l)), env)
    ensures MovesAvailable(later.balances, freed.balances, db.liens[l].account,
                           if LienActive(later, l) then db.liens[l].amount else 0)
    ensures !LienActive(later, l) ==> freed == later
    ensures Step(freed, ReleaseLien(ReleaseInput(db.liens[l].account, l)), again) == freed
  {
    LienSurvives(db, calls, later, l);
    var change := Committed(later, ReleaseLien(ReleaseInput(db.liens[l].account, l)), env);
    ReleaseCommits(later, l, env, change);
    FreeingGivesBack(later, l, change);
    ReleaseCommits(freed, l, again, Committed(freed, ReleaseLien(ReleaseInput(db.liens[l].account, l)), again));
  }

  /** Released at once, it leaves every balance as it was. */
  lemma ReleasingUndoesPlacing(db: DB, input: LienInput, env: Env, placed: DB, releaseEnv: Env)
    requires Inv(db) && Committed(db, PlaceLien(input), env).PutLien? && placed == Step(db, PlaceLien(input), env)
    ensures Step(placed, ReleaseLien(ReleaseInput(input.account, env.lien)), releaseEnv).balances == db.balances
  {
    PlacingTakes(db, input, env, placed);
    var change := Committed(placed, ReleaseLien(ReleaseInput(input.account, env.lien)), releaseEnv);
    ReleaseCommits(placed, env.lien, releaseEnv, change);
    FreeingGivesBack(placed, env.lien, change);
  }
}
