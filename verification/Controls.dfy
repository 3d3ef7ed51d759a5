/** Liens, account status changes and account opening. */
module Controls {
  import opened Types
  import opened Transfers

  predicate ActiveLien(db: DB, lien: LienId, reference: Text) {
    lien in db.liens && db.liens[lien].status == Active && db.liens[lien].reference == reference
  }

  function PlaceLienOn(db: DB, input: LienInput, env: Env): Outcome {
    var missing := MissingAccount(db, input.account);
    Outcome([LienReferenceLock(input.reference)] + RowPair(input.account)
            + (if env.lienPick.Some? then [LienRow(env.lienPick.value)] else []),
      if missing.Some? then Fail(missing.value)
      else
        var account, balance := db.accounts[input.account], db.balances[input.account];
        if account.kind != Customer || account.status == Closed then Fail(InvalidRequest)
        else if env.lienPick.Some? && ActiveLien(db, env.lienPick.value, input.reference) then
          var existing := db.liens[env.lienPick.value];
          if existing.account == input.account && existing.amount == input.amount && existing.currency == input.currency
          then ReplayOf(env.lienPick.value)
          else Fail(Conflict)
        else if account.currency != input.currency then Fail(InvalidRequest)
        else if balance.available < input.amount then Fail(Insufficient)
        else if input.amount <= 0 then Fail(CheckViolation)
        else
          Done(
            PutLien(env.lien, Hold(input.account, input.amount, input.currency, Active, input.reference)),
            env.lien, true))
  }

  function ReleaseLienOn(db: DB, input: ReleaseInput): Outcome {
    Outcome([LienRow(input.lien)] + (if FreesLien(db, input) then [BalanceRow(input.account)] else []),
      if input.lien !in db.liens || db.liens[input.lien].account != input.account then Fail(NotFound)
      else if db.liens[input.lien].status != Active then ReplayOf(input.lien)
      else if input.account !in db.balances then Fail(DataIntegrity)
      else Done(FreeLien(input.lien), input.lien, false))
  }

  predicate FreesLien(db: DB, input: ReleaseInput) {
    && input.lien in db.liens
    && db.liens[input.lien].account == input.account
    && db.liens[input.lien].status == Active
  }

  predicate AllowedTransition(current: AccountStatus, allowed: seq<AccountStatus>) {
    allowed == [] || current in allowed
  }

  function SetAccountStatus(db: DB, input: StatusInput): Outcome {
    Outcome([AccountRow(input.account)],
      if input.account !in db.accounts then Fail(NotFound)
      else if !AllowedTransition(db.accounts[input.account].status, input.allowed) then Fail(InvalidRequest)
      else if db.accounts[input.account].status == input.status then ReplayOf(input.account)
      else Done(PutStatus(input.account, input.status), input.account, false))
  }

  // Customer accounts open active, credit-normal, without overdraft, at zero.
  function OpenAccount(currency: Currency, env: Env): Outcome {
    var account := Account(Customer, Credit, false, ActiveAccount, currency);
    Outcome([], Done(AddAccount(env.account, account), env.account, true))
  }
}
