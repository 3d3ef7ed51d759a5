/** One committed transaction, and runs of them. */
module Steps {
  import opened Types
  import opened Policy
  import opened Ledger
  import opened Transfers
  import opened Controls

  function Exec(db: DB, op: Op, env: Env): Outcome {
    match op
    case Record(input) => RecordTransfer(db, input, env)
    case Complete(id, input) => CompleteOutbound(db, id, input, env)
    case Requery(id, input) => RequeryTransfer(db, id, input, env)
    case Reverse(input) => ReverseTransfer(db, input, env)
    case Review(input) => RecordReview(db, input, env)
    case PlaceLien(input) => PlaceLienOn(db, input, env)
    case ReleaseLien(input) => ReleaseLienOn(db, input)
    case SetStatus(input) => SetAccountStatus(db, input)
    case CreateAccount(currency) => OpenAccount(currency, env)
  }

  // The statements that commit: none at all when the transaction fails.
  function Committed(db: DB, op: Op, env: Env): Change {
    match Exec(db, op, env).reply
    case Done(change, _, _) => change
    case Fail(_) => NoChange
  }

  function Step(db: DB, op: Op, env: Env): DB {
    Apply(db, Committed(db, op, env))
  }

  // Ids come from a generator that never repeats one.
  predicate FreshIds(db: DB, env: Env) {
    && env.transfer !in db.transfers
    && env.journal !in db.journals
    && env.lien !in db.liens
    && env.account !in db.accounts
  }

  /** What the service layer guarantees about a request before it reaches the
      repository: directions and reversal links are its own constants, reviews
      are unposted inbound rows, and the status moves are its four fixed ones. */
  predicate WellFormed(op: Op) {
    match op
    case Record(input) => input.direction != Reversal && input.reversalOf.None?
    case Complete(_, input) => input.direction == Outbound && input.reversalOf.None?
    case Requery(_, input) => input.direction != Reversal && input.reversalOf.None?
    case Review(input) => input.direction == Inbound && (input.status == Failed || input.status == Pending)
    case SetStatus(input) => ServiceTransition(input.status, input.allowed)
    case _ => true
  }

  // Freeze, unfreeze, activate and deactivate post-no-debit.
  predicate ServiceTransition(status: AccountStatus, allowed: seq<AccountStatus>) {
    || (status == Frozen && allowed == [ActiveAccount])
    || (status == ActiveAccount && allowed == [Frozen])
    || (status == PostNoDebit && allowed == [ActiveAccount])
    || (status == ActiveAccount && allowed == [PostNoDebit])
  }

  /** A request that would hold funds names a credit-normal account. */
  predicate HoldsOnCredit(db: DB, op: Op) {
    op.Record? && CustomerInitiatedOutbound(op.input) && EffectiveStatus(op.input) == Pending
    && op.input.account in db.accounts
    ==> db.accounts[op.input.account].normal == Credit
  }

  // What the run theorems ask of each request.
  predicate Admissible(db: DB, op: Op, env: Env) {
    WellFormed(op) && HoldsOnCredit(db, op) && FreshIds(db, env)
  }

  datatype Call = Call(op: Op, env: Env)

  function Run(db: DB, calls: seq<Call>): DB
    decreases |calls|
  {
    if calls == [] then db else Run(Step(db, calls[0].op, calls[0].env), calls[1..])
  }

  predicate AdmissibleRun(db: DB, calls: seq<Call>)
    decreases |calls|
  {
    calls == [] ||
    (Admissible(db, calls[0].op, calls[0].env) && AdmissibleRun(Step(db, calls[0].op, calls[0].env), calls[1..]))
  }
}
