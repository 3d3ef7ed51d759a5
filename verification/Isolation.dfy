/** What a transaction can see of a resource it has locked, and why that is enough:
    its outcome depends on nothing else, and it changes nothing else. */
module Isolation {
  import opened Types
  import opened Policy
  import opened Ledger
  import opened Transfers
  import opened Controls
  import opened Steps
  import opened Invariant
  import opened Decisions

  // The part of the tables a lock guards.
  datatype Cell =
    | NoCell
    | KeyCell(transfer: Option<TransferId>)
    | EventCell(event: Option<ProviderEvent>, link: Option<Option<TransferId>>)
    | TransferCell(row: Option<Transfer>, hold: Option<Hold>, reversal: Option<(TransferId, Key)>,
      journal: Option<Journal>)
    | AccountCell(account: Option<Account>)
    | BalanceCell(balance: Option<Balance>)
    | LienCell(lien: Option<Hold>)

  // A transfer's reversal link never changes, so an event's reader may rely on it.
  function LinkOf(db: DB, id: Option<TransferId>): Option<Option<TransferId>> {
    if id.Some? && id.value in db.transfers then Some(db.transfers[id.value].reversalOf) else None
  }

  // The active reversal of a transfer, with its idempotency key, which never changes either.
  function ReversalSeen(db: DB, id: TransferId): Option<(TransferId, Key)> {
    if id in db.reversals && db.reversals[id] in db.transfers
    then Some((db.reversals[id], db.transfers[db.reversals[id]].key)) else None
  }

  function JournalSeen(db: DB, id: TransferId): Option<Journal> {
    if Posts(db, id) then Some(JournalOf(db, id)) else None
  }

  function View(db: DB, r: Resource): Cell {
    match r
    case KeyLock(k) => KeyCell(Find(db.byKey, k))
    case EventLock(e) => EventCell(Find(db.events, e),
      LinkOf(db, if e in db.events then db.events[e].transfer else None))
    case TransferRow(id) => TransferCell(Find(db.transfers, id), Find(db.holds, id), ReversalSeen(db, id),
      JournalSeen(db, id))
    case AccountRow(a) => AccountCell(Find(db.accounts, a))
    case BalanceRow(a) => BalanceCell(Find(db.balances, a))
    case LienRow(l) => LienCell(Find(db.liens, l))
    case _ => NoCell
  }

  predicate Agree(x: DB, y: DB, locks: seq<Resource>) {
    forall r | r in locks :: View(x, r) == View(y, r)
  }

  lemma AgreeParts(x: DB, y: DB, a: seq<Resource>, b: seq<Resource>)
    requires Agree(x, y, a + b)
    ensures Agree(x, y, a) && Agree(x, y, b)
  {
    forall r | r in a ensures View(x, r) == View(y, r) { assert r in a + b; }
    forall r | r in b ensures View(x, r) == View(y, r) { assert r in a + b; }
  }

  // ---- the outcome depends only on what was locked -----------------------------------

  lemma SameTransfer(x: DB, y: DB, id: TransferId)
    requires View(x, TransferRow(id)) == View(y, TransferRow(id))
    ensures id in x.transfers <==> id in y.transfers
    ensures id in x.transfers ==> x.transfers[id] == y.transfers[id]
    ensures ActiveHold(x, id) <==> ActiveHold(y, id)
    ensures id in x.transfers ==> Counterparty(x, x.transfers[id]) == Counterparty(y, y.transfers[id])
    ensures (id in x.reversals && x.reversals[id] in x.transfers)
      <==> (id in y.reversals && y.reversals[id] in y.transfers)
    ensures id in x.reversals && x.reversals[id] in x.transfers ==>
      x.reversals[id] == y.reversals[id] && x.transfers[x.reversals[id]].key == y.transfers[y.reversals[id]].key
  {
    assert Find(x.transfers, id) == Find(y.transfers, id);
    assert Find(x.holds, id) == Find(y.holds, id);
    assert JournalSeen(x, id) == JournalSeen(y, id);
    assert ReversalSeen(x, id) == ReversalSeen(y, id);
  }

  lemma SameAccount(x: DB, y: DB, a: AccountId)
    requires Agree(x, y, RowPair(a))
    ensures Find(x.accounts, a) == Find(y.accounts, a) && Find(x.balances, a) == Find(y.balances, a)
    ensures MissingAccount(x, a) == MissingAccount(y, a)
  {
    assert AccountRow(a) in RowPair(a) && BalanceRow(a) in RowPair(a);
    assert View(x, AccountRow(a)) == View(y, AccountRow(a)) && View(x, BalanceRow(a)) == View(y, BalanceRow(a));
  }

  lemma SamePair(x: DB, y: DB, a: AccountId, b: AccountId)
    requires Agree(x, y, AccountLocks(a, b))
    ensures Find(x.accounts, a) == Find(y.accounts, a) && Find(x.balances, a) == Find(y.balances, a)
    ensures Find(x.accounts, b) == Find(y.accounts, b) && Find(x.balances, b) == Find(y.balances, b)
    ensures MissingPair(x, a, b) == MissingPair(y, a, b)
  {
    if a < b { AgreeParts(x, y, RowPair(a), RowPair(b)); } else { AgreeParts(x, y, RowPair(b), RowPair(a)); }
    SameAccount(x, y, a);
    SameAccount(x, y, b);
  }

  lemma SameEventKey(x: DB, y: DB, e: EventKey, fingerprint: Fingerprint)
    requires View(x, EventLock(e)) == View(y, EventLock(e))
    ensures e in x.events <==> e in y.events
    ensures LinkedTransfer(x, e) == LinkedTransfer(y, e)
    ensures LinkedTransfer(x, e).Some? ==>
      x.transfers[LinkedTransfer(x, e).value].reversalOf == y.transfers[LinkedTransfer(x, e).value].reversalOf
    ensures ReplayByEvent(x, e, fingerprint) == ReplayByEvent(y, e, fingerprint)
  {
    assert Find(x.events, e) == Find(y.events, e);
  }

  lemma SameEvent(x: DB, y: DB, input: RecordInput)
    requires Agree(x, y, EventLocks(input))
    ensures EventTaken(x, input) <==> EventTaken(y, input)
    ensures input.event.Some? ==>
      && var e := EventKey(input.provider, input.event.value);
         LinkedTransfer(x, e) == LinkedTransfer(y, e)
         && ReplayByEvent(x, e, FingerprintOf(input)) == ReplayByEvent(y, e, FingerprintOf(input))
  {
    if input.event.Some? {
      assert EventLock(EventKey(input.provider, input.event.value)) in EventLocks(input);
      SameEventKey(x, y, EventKey(input.provider, input.event.value), FingerprintOf(input));
    }
  }

  lemma FreshLocal(x: DB, y: DB, input: RecordInput, env: Env)
    requires Agree(x, y, EventLocks(input)) && Agree(x, y, RecordFresh(x, input, env).locks)
    ensures RecordFresh(x, input, env) == RecordFresh(y, input, env)
  {
    SameEvent(x, y, input);
    if input.account != input.clearing { SamePair(x, y, input.account, input.clearing); }
  }

  lemma SettleLocal(x: DB, y: DB, id: TransferId, input: RecordInput, env: Env)
    requires id in x.transfers && View(x, TransferRow(id)) == View(y, TransferRow(id))
    requires Agree(x, y, Settle(x, id, input, env).locks)
    ensures id in y.transfers && Settle(x, id, input, env) == Settle(y, id, input, env)
  {
    SameTransfer(x, y, id);
    var row := x.transfers[id];
    if row.direction == input.direction && SameMovement(row, input) && row.account != input.clearing {
      AgreeParts(x, y, AccountLocks(row.account, input.clearing), EventLocks(input));
      SamePair(x, y, row.account, input.clearing);
      SameEvent(x, y, input);
    }
  }

  lemma CompleteLocal(x: DB, y: DB, id: TransferId, input: RecordInput, env: Env)
    requires Agree(x, y, CompleteOutbound(x, id, input, env).locks)
    ensures CompleteOutbound(x, id, input, env) == CompleteOutbound(y, id, input, env)
  {
    var whole := CompleteOutbound(x, id, input, env).locks;
    var head := EventLocks(input) + [TransferRow(id)];
    assert whole == head + whole[|head|..];
    AgreeParts(x, y, head, whole[|head|..]);
    AgreeParts(x, y, EventLocks(input), [TransferRow(id)]);
    assert TransferRow(id) in [TransferRow(id)];
    SameTransfer(x, y, id);
    SameEvent(x, y, input);
    if id in x.transfers && whole[|head|..] == AccountLocks(x.transfers[id].account, input.clearing) {
      SamePair(x, y, x.transfers[id].account, input.clearing);
    }
  }

  lemma RefreshLocal(x: DB, y: DB, id: TransferId, input: RecordInput, providerStatus: Status, env: Env)
    requires id in x.transfers && View(x, TransferRow(id)) == View(y, TransferRow(id))
    requires Agree(x, y, RefreshPendingInbound(x, id, input, providerStatus, env).locks)
    ensures id in y.transfers
    ensures RefreshPendingInbound(x, id, input, providerStatus, env)
      == RefreshPendingInbound(y, id, input, providerStatus, env)
  {
    SameTransfer(x, y, id);
    SameAccount(x, y, x.transfers[id].account);
  }

  lemma RequeryPendingLocal(x: DB, y: DB, id: TransferId, input: RecordInput, env: Env)
    requires id in x.transfers && View(x, TransferRow(id)) == View(y, TransferRow(id))
    requires Agree(x, y, RequeryPending(x, id, input, env).locks)
    ensures id in y.transfers && RequeryPending(x, id, input, env) == RequeryPending(y, id, input, env)
  {
    SameTransfer(x, y, id);
    if CompletionStatuses(input).Some? {
      match x.transfers[id].direction
      case Outbound => CompleteLocal(x, y, id, input, env);
      case Inbound =>
        if CompletionStatuses(input).value.0 == Pending {
          RefreshLocal(x, y, id, input, ProviderStatusOf(input), env);
        } else {
          SettleLocal(x, y, id, input, env);
        }
      case Reversal =>
    }
  }

  lemma RequeryLocal(x: DB, y: DB, id: TransferId, input: RecordInput, env: Env)
    requires Agree(x, y, RequeryTransfer(x, id, input, env).locks)
    ensures RequeryTransfer(x, id, input, env) == RequeryTransfer(y, id, input, env)
  {
    var whole := RequeryTransfer(x, id, input, env).locks;
    assert whole == [TransferRow(id)] + whole[1..];
    AgreeParts(x, y, [TransferRow(id)], whole[1..]);
    assert TransferRow(id) in [TransferRow(id)];
    SameTransfer(x, y, id);
    if id in x.transfers {
      var row := x.transfers[id];
      var known := WithReference(row, input);
      if whole[1..] == RequeryPending(x, id, known, env).locks { RequeryPendingLocal(x, y, id, known, env); }
    }
  }

  lemma UnlessSettledLocal(x: DB, y: DB, input: RecordInput, env: Env)
    requires Agree(x, y, EventLocks(input)) && Agree(x, y, RecordUnlessSettled(x, input, env).locks)
    ensures RecordUnlessSettled(x, input, env) == RecordUnlessSettled(y, input, env)
  {
    match env.settledPick
    case None => FreshLocal(x, y, input, env);
    case Some(pick) =>
      var whole := RecordUnlessSettled(x, input, env).locks;
      assert whole == [TransferRow(pick)] + whole[1..];
      AgreeParts(x, y, [TransferRow(pick)], whole[1..]);
      assert TransferRow(pick) in [TransferRow(pick)];
      SameTransfer(x, y, pick);
      if !SettledMatch(x, pick, input) { FreshLocal(x, y, input, env); }
  }

  lemma ByReferenceLocal(x: DB, y: DB, input: RecordInput, env: Env)
    requires Agree(x, y, EventLocks(input)) && Agree(x, y, RecordByReference(x, input, env).locks)
    ensures RecordByReference(x, input, env) == RecordByReference(y, input, env)
  {
    match env.pendingPick
    case None => UnlessSettledLocal(x, y, input, env);
    case Some(pick) =>
      var whole := RecordByReference(x, input, env).locks;
      assert whole == [TransferRow(pick)] + whole[1..];
      AgreeParts(x, y, [TransferRow(pick)], whole[1..]);
      assert TransferRow(pick) in [TransferRow(pick)];
      SameTransfer(x, y, pick);
      if PendingMatch(x, pick, input) {
        SettleLocal(x, y, pick, input, env);
      } else {
        UnlessSettledLocal(x, y, input, env);
      }
  }

  // What recordTransfer does once its replay keys are locked.
  function Body(db: DB, input: RecordInput, env: Env): Outcome {
    if input.key in db.byKey && db.byKey[input.key] in db.transfers then
      var id := db.byKey[input.key];
      Outcome([TransferRow(id)], ReplayByKey(db, id, db.transfers[id], input))
    else if input.event.Some? && LinkedTransfer(db, EventKey(input.provider, input.event.value)).Some? then
      Outcome([], ReplayByEvent(db, EventKey(input.provider, input.event.value), FingerprintOf(input)))
    else if ByReference(input) then RecordByReference(db, input, env)
    else RecordFresh(db, input, env)
  }

  lemma SameKey(x: DB, y: DB, k: Key)
    requires KeysOk(x) && KeysOk(y) && View(x, KeyLock(k)) == View(y, KeyLock(k))
    ensures (k in x.byKey && x.byKey[k] in x.transfers) <==> (k in y.byKey && y.byKey[k] in y.transfers)
    ensures k in x.byKey ==> k in y.byKey && x.byKey[k] == y.byKey[k]
  {
    assert Find(x.byKey, k) == Find(y.byKey, k);
    assert k in x.byKey ==> KeyOk(x, k);
    assert k in y.byKey ==> KeyOk(y, k);
  }

  lemma BodyLocal(x: DB, y: DB, input: RecordInput, env: Env)
    requires KeysOk(x) && KeysOk(y)
    requires View(x, KeyLock(input.key)) == View(y, KeyLock(input.key)) && Agree(x, y, EventLocks(input))
    requires Agree(x, y, Body(x, input, env).locks)
    ensures Body(x, input, env) == Body(y, input, env)
  {
    SameKey(x, y, input.key);
    SameEvent(x, y, input);
    if input.key in x.byKey && x.byKey[input.key] in x.transfers {
      var id := x.byKey[input.key];
      assert TransferRow(id) in Body(x, input, env).locks;
      SameTransfer(x, y, id);
    } else if input.event.Some? && LinkedTransfer(x, EventKey(input.provider, input.event.value)).Some? {
    } else if ByReference(input) {
      ByReferenceLocal(x, y, input, env);
    } else {
      FreshLocal(x, y, input, env);
    }
  }

  lemma ReplayLocksAgree(x: DB, y: DB, input: RecordInput, rest: seq<Resource>)
    requires Agree(x, y, ReplayLocks(input) + rest)
    ensures View(x, KeyLock(input.key)) == View(y, KeyLock(input.key)) && Agree(x, y, EventLocks(input))
    ensures Agree(x, y, rest)
  {
    AgreeParts(x, y, ReplayLocks(input), rest);
    var third := if ByReference(input) then [ReferenceLock(input.provider, input.reference, input.direction)] else [];
    AgreeParts(x, y, [KeyLock(input.key)] + EventLocks(input), third);
    AgreeParts(x, y, [KeyLock(input.key)], EventLocks(input));
    assert KeyLock(input.key) in [KeyLock(input.key)];
  }

  lemma RecordLocal(x: DB, y: DB, input: RecordInput, env: Env)
    requires KeysOk(x) && KeysOk(y) && Agree(x, y, RecordTransfer(x, input, env).locks)
    ensures RecordTransfer(x, input, env) == RecordTransfer(y, input, env)
  {
    assert RecordTransfer(x, input, env) == Locked(ReplayLocks(input), Body(x, input, env));
    assert RecordTransfer(y, input, env) == Locked(ReplayLocks(input), Body(y, input, env));
    ReplayLocksAgree(x, y, input, Body(x, input, env).locks);
    BodyLocal(x, y, input, env);
  }

  // A replayed row's reversal link is the same for both readers.
  lemma SameAnswer(x: DB, y: DB, input: RecordInput, env: Env)
    requires KeysOk(x) && KeysOk(y) && Agree(x, y, RecordTransfer(x, input, env).locks)
    requires RecordTransfer(x, input, env).reply.Done? && RecordTransfer(x, input, env).reply.change == NoChange
    ensures LinkOf(x, Some(RecordTransfer(x, input, env).reply.id))
      == LinkOf(y, Some(RecordTransfer(x, input, env).reply.id))
  {
    assert RecordTransfer(x, input, env) == Locked(ReplayLocks(input), Body(x, input, env));
    ReplayLocksAgree(x, y, input, Body(x, input, env).locks);
    BodyAnswer(x, y, input, env);
  }

  predicate LockedOrLinked(outcome: Outcome, db: DB, input: RecordInput) {
    outcome.reply.Done? && outcome.reply.change == NoChange ==>
      || TransferRow(outcome.reply.id) in outcome.locks
      || (input.event.Some?
          && LinkedTransfer(db, EventKey(input.provider, input.event.value)) == Some(outcome.reply.id))
  }

  lemma FreshAnswer(x: DB, input: RecordInput, env: Env)
    ensures LockedOrLinked(RecordFresh(x, input, env), x, input)
  {
  }

  lemma SettleAnswer(x: DB, id: TransferId, input: RecordInput, env: Env)
    requires id in x.transfers
    ensures LockedOrLinked(Settle(x, id, input, env), x, input)
  {
  }

  lemma ByReferenceAnswer(x: DB, input: RecordInput, env: Env)
    ensures LockedOrLinked(RecordByReference(x, input, env), x, input)
  {
    FreshAnswer(x, input, env);
    if env.pendingPick.Some? && PendingMatch(x, env.pendingPick.value, input) {
      SettleAnswer(x, env.pendingPick.value, input, env);
    }
  }

  lemma BodyAnswer(x: DB, y: DB, input: RecordInput, env: Env)
    requires Agree(x, y, EventLocks(input)) && Agree(x, y, Body(x, input, env).locks)
    requires Body(x, input, env).reply.Done? && Body(x, input, env).reply.change == NoChange
    ensures LinkOf(x, Some(Body(x, input, env).reply.id)) == LinkOf(y, Some(Body(x, input, env).reply.id))
  {
    var outcome := Body(x, input, env);
    ByReferenceAnswer(x, input, env);
    FreshAnswer(x, input, env);
    assert LockedOrLinked(outcome, x, input);
    if TransferRow(outcome.reply.id) in outcome.locks {
      SameTransfer(x, y, outcome.reply.id);
    } else {
      var e := EventKey(input.provider, input.event.value);
      assert EventLock(e) in EventLocks(input);
      SameEventKey(x, y, e, FingerprintOf(input));
    }
  }

  lemma ReversalRecordLocal(x: DB, y: DB, record: RecordInput, input: ReverseInput, env: Env)
    requires KeysOk(x) && KeysOk(y) && Agree(x, y, RecordTransfer(x, record, env).locks)
    ensures RecordTransfer(x, record, env) == RecordTransfer(y, record, env)
    ensures FinishReversal(x, RecordTransfer(x, record, env).reply, input, env)
         == FinishReversal(y, RecordTransfer(x, record, env).reply, input, env)
  {
    RecordLocal(x, y, record, env);
    RecordKind(x, record, env);
    var reply := RecordTransfer(x, record, env).reply;
    if reply.Done? && reply.change == NoChange { SameAnswer(x, y, record, env); }
    FinishLocal(x, y, reply, input, env);
  }

  lemma ReverseOnceLocal(x: DB, y: DB, original: Transfer, input: ReverseInput, env: Env)
    requires KeysOk(x) && KeysOk(y) && Counterparty(x, original) == Counterparty(y, original)
    requires Agree(x, y, ReverseOnce(x, original, input, env).locks)
    ensures ReverseOnce(x, original, input, env) == ReverseOnce(y, original, input, env)
  {
    if Counterparty(x, original).Some? {
      ReversalRecordLocal(x, y, ReversalInput(original, Counterparty(x, original).value, input), input, env);
    }
  }

  lemma ReverseLocal(x: DB, y: DB, input: ReverseInput, env: Env)
    requires KeysOk(x) && KeysOk(y) && Agree(x, y, ReverseTransfer(x, input, env).locks)
    ensures ReverseTransfer(x, input, env) == ReverseTransfer(y, input, env)
  {
    var whole := ReverseTransfer(x, input, env).locks;
    assert whole == [TransferRow(input.transfer)] + whole[1..];
    AgreeParts(x, y, [TransferRow(input.transfer)], whole[1..]);
    assert TransferRow(input.transfer) in [TransferRow(input.transfer)];
    SameTransfer(x, y, input.transfer);
    if input.transfer in x.transfers && whole[1..] == ReverseOnce(x, x.transfers[input.transfer], input, env).locks {
      ReverseOnceLocal(x, y, x.transfers[input.transfer], input, env);
    }
  }

  lemma FinishLocal(x: DB, y: DB, recorded: Reply, input: ReverseInput, env: Env)
    requires recorded.Done? && recorded.change == NoChange ==>
      LinkOf(x, Some(recorded.id)) == LinkOf(y, Some(recorded.id))
    requires recorded.Done? ==> recorded.change == NoChange || recorded.change.Insert? || recorded.change.Advance?
    ensures FinishReversal(x, recorded, input, env) == FinishReversal(y, recorded, input, env)
  {
  }

  lemma ReviewLocal(x: DB, y: DB, input: ReviewInput, env: Env)
    requires KeysOk(x) && KeysOk(y) && Agree(x, y, RecordReview(x, input, env).locks)
    ensures RecordReview(x, input, env) == RecordReview(y, input, env)
  {
    if ValidReview(input) {
      var whole := RecordReview(x, input, env).locks;
      var event := if input.reserveEvent then [EventLock(ReviewEventKey(input))] else [];
      var head := [KeyLock(input.key)] + event;
      assert whole == head + whole[|head|..];
      AgreeParts(x, y, head, whole[|head|..]);
      AgreeParts(x, y, [KeyLock(input.key)], event);
      assert KeyLock(input.key) in [KeyLock(input.key)];
      SameKey(x, y, input.key);
      if input.reserveEvent {
        assert EventLock(ReviewEventKey(input)) in event;
        SameEventKey(x, y, ReviewEventKey(input), input.fingerprint);
      }
      if input.key in x.byKey && whole[|head|..] == [TransferRow(x.byKey[input.key])] {
        assert TransferRow(x.byKey[input.key]) in whole[|head|..];
        SameTransfer(x, y, x.byKey[input.key]);
      }
      if whole[|head|..] == RowPair(input.account) { SameAccount(x, y, input.account); }
    }
  }

  lemma LienLocal(x: DB, y: DB, input: LienInput, env: Env)
    requires Agree(x, y, PlaceLienOn(x, input, env).locks)
    ensures PlaceLienOn(x, input, env) == PlaceLienOn(y, input, env)
  {
    var pick := if env.lienPick.Some? then [LienRow(env.lienPick.value)] else [];
    AgreeParts(x, y, [LienReferenceLock(input.reference)] + RowPair(input.account), pick);
    AgreeParts(x, y, [LienReferenceLock(input.reference)], RowPair(input.account));
    SameAccount(x, y, input.account);
    if env.lienPick.Some? {
      assert LienRow(env.lienPick.value) in pick;
      assert Find(x.liens, env.lienPick.value) == Find(y.liens, env.lienPick.value);
    }
  }

  lemma ReleaseLocal(x: DB, y: DB, input: ReleaseInput)
    requires Agree(x, y, ReleaseLienOn(x, input).locks)
    ensures ReleaseLienOn(x, input) == ReleaseLienOn(y, input)
  {
    var balance := if FreesLien(x, input) then [BalanceRow(input.account)] else [];
    AgreeParts(x, y, [LienRow(input.lien)], balance);
    assert LienRow(input.lien) in [LienRow(input.lien)];
    assert Find(x.liens, input.lien) == Find(y.liens, input.lien);
    if FreesLien(x, input) {
      assert BalanceRow(input.account) in balance;
      assert Find(x.balances, input.account) == Find(y.balances, input.account);
    }
  }

  lemma StatusLocal(x: DB, y: DB, input: StatusInput)
    requires Agree(x, y, SetAccountStatus(x, input).locks)
    ensures SetAccountStatus(x, input) == SetAccountStatus(y, input)
  {
    assert AccountRow(input.account) in SetAccountStatus(x, input).locks;
    assert Find(x.accounts, input.account) == Find(y.accounts, input.account);
  }

  /** Two databases that look alike through the locks a transaction takes give it the same outcome. */
  lemma ExecLocal(x: DB, y: DB, op: Op, env: Env)
    requires KeysOk(x) && KeysOk(y) && Agree(x, y, Exec(x, op, env).locks)
    ensures Exec(x, op, env) == Exec(y, op, env)
  {
    match op
    case Record(input) => RecordLocal(x, y, input, env);
    case Complete(id, input) => CompleteLocal(x, y, id, input, env);
    case Requery(id, input) => RequeryLocal(x, y, id, input, env);
    case Reverse(input) => ReverseLocal(x, y, input, env);
    case Review(input) => ReviewLocal(x, y, input, env);
    case PlaceLien(input) => LienLocal(x, y, input, env);
    case ReleaseLien(input) => ReleaseLocal(x, y, input);
    case SetStatus(input) => StatusLocal(x, y, input);
    case CreateAccount(_) =>
  }
}
