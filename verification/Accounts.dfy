/** Account status, liens and account opening: exactly when a request succeeds, and what it leaves. */
module Accounts {
  import opened Types
  import opened Steps
  import opened Invariant

  // ---- status --------------------------------------------------------------------------

  // The account is there, and its status is one the change may start from; any is if none is listed.
  predicate MayChange(db: DB, input: StatusInput) {
    && input.account in db.accounts
    && (input.allowed == [] || db.accounts[input.account].status in input.allowed)
  }

  /** A status request succeeds if and only if the account exists and may change. It then has
      the status asked for and nothing else changed; otherwise nothing changed. */
  lemma StatusIsSet(db: DB, input: StatusInput, env: Env, next: DB)
    requires next == Step(db, SetStatus(input), env)
    ensures Exec(db, SetStatus(input), env).reply.Done? <==> MayChange(db, input)
    ensures MayChange(db, input) ==>
      next == db.(accounts := db.accounts[input.account := db.accounts[input.account].(status := input.status)])
    ensures !MayChange(db, input) ==>
      next == db && Exec(db, SetStatus(input), env).reply
                    == Fail(if input.account !in db.accounts then NotFound else InvalidRequest)
  {
    if MayChange(db, input) {
      var account := db.accounts[input.account];
      assert account.status == input.status ==>
        db.accounts == db.accounts[input.account := account.(status := input.status)];
    }
  }

  /** Freezing an active account freezes it, and so on for the four moves the service offers. */
  lemma ServiceMoves(db: DB, a: AccountId, from: AccountStatus, to: AccountStatus, env: Env, next: DB)
    requires a in db.accounts && db.accounts[a].status == from
    requires next == Step(db, SetStatus(StatusInput(a, to, [from])), env)
    ensures a in next.accounts && next.accounts[a] == db.accounts[a].(status := to)
  {
    StatusIsSet(db, StatusInput(a, to, [from]), env, next);
  }

  // ---- liens ---------------------------------------------------------------------------

  // An active lien with this reference was found.
  predicate LienFound(db: DB, input: LienInput, env: Env) {
    && env.lienPick.Some? && env.lienPick.value in db.liens
    && db.liens[env.lienPick.value].status == Active && db.liens[env.lienPick.value].reference == input.reference
  }

  // A customer account that is not closed.
  predicate Chargeable(db: DB, a: AccountId) {
    a in db.accounts && db.accounts[a].kind == Customer && db.accounts[a].status != Closed
  }

  predicate Placeable(db: DB, input: LienInput, env: Env) {
    && Chargeable(db, input.account) && !LienFound(db, input, env)
    && db.accounts[input.account].currency == input.currency
    && input.account in db.balances && 0 < input.amount <= db.balances[input.account].available
  }

  /** A lien is placed if and only if the account is a customer's, not closed, of that currency,
      has a positive amount available in full, and no active lien carries the reference. It is
      then on record, and nothing but its account's available balance moved. */
  lemma LienIsPlaced(db: DB, input: LienInput, env: Env, next: DB)
    requires AccountsOk(db) && next == Step(db, PlaceLien(input), env)
    ensures Committed(db, PlaceLien(input), env).PutLien? <==> Placeable(db, input, env)
    ensures Placeable(db, input, env) ==>
      && Exec(db, PlaceLien(input), env).reply.id == env.lien && Exec(db, PlaceLien(input), env).reply.created
      && next == db.(
           liens := db.liens[env.lien := Hold(input.account, input.amount, input.currency, Active, input.reference)],
           balances := db.balances[input.account := db.balances[input.account].(
                         available := db.balances[input.account].available - input.amount)])
    ensures !Placeable(db, input, env) ==> next == db
  {
  }

  /** The reference of an active lien is answered with that lien, if the request is the same,
      and refused if it is another. */
  lemma LienReplays(db: DB, input: LienInput, env: Env)
    requires AccountsOk(db) && Chargeable(db, input.account) && LienFound(db, input, env)
    ensures var lien := db.liens[env.lienPick.value];
            Exec(db, PlaceLien(input), env).reply
            == if lien.account == input.account && lien.amount == input.amount && lien.currency == input.currency
               then Done(NoChange, env.lienPick.value, false) else Fail(Conflict)
  {
  }

  /** A lien too large for what is available is refused for that reason. */
  lemma LienTooLarge(db: DB, input: LienInput, env: Env)
    requires AccountsOk(db) && Chargeable(db, input.account) && !LienFound(db, input, env)
    requires db.accounts[input.account].currency == input.currency
    ensures input.account in db.balances
    ensures Exec(db, PlaceLien(input), env).reply == Fail(Insufficient)
       <==> db.balances[input.account].available < input.amount
  {
  }

  /** A release succeeds if and only if the account has that lien; an active one is released
      and its amount given back, one released before is left as it is. */
  lemma LienIsReleased(db: DB, input: ReleaseInput, env: Env, next: DB)
    requires AccountsOk(db) && LiensOk(db) && next == Step(db, ReleaseLien(input), env)
    ensures Exec(db, ReleaseLien(input), env).reply.Done?
       <==> input.lien in db.liens && db.liens[input.lien].account == input.account
    ensures Exec(db, ReleaseLien(input), env).reply.Done? && db.liens[input.lien].status == Active ==>
      && input.account in db.balances
      && next == db.(
           liens := db.liens[input.lien := db.liens[input.lien].(status := Released)],
           balances := db.balances[input.account := db.balances[input.account].(
                         available := db.balances[input.account].available + db.liens[input.lien].amount)])
    ensures Exec(db, ReleaseLien(input), env).reply.Fail? ==> next == db
    ensures input.lien in db.liens && db.liens[input.lien].status != Active ==> next == db
  {
    if input.lien in db.liens { assert LienOk(db, input.lien); }
  }

  // ---- opening ---------------------------------------------------------------------------

  /** A customer account opens active, credit-normal, without overdraft, at zero. */
  lemma AccountIsOpened(db: DB, currency: Currency, env: Env)
    ensures Step(db, CreateAccount(currency), env)
         == db.(accounts := db.accounts[env.account := Account(Customer, Credit, false, ActiveAccount, currency)],
                balances := db.balances[env.account := Balance(0, 0, None)])
  {
  }
}
