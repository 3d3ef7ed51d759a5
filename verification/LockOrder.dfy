/** Account and balance rows are locked in one global order, so they alone never deadlock. */
module LockOrder {
  import opened Types
  import opened Transfers
  import opened Steps
  import opened Isolation

  predicate AccountLock(r: Resource) {
    r.AccountRow? || r.BalanceRow?
  }

  // Account id first, then the account row before its balance row.
  function Rank(r: Resource): nat
    requires AccountLock(r)
  {
    2 * r.account + (if r.BalanceRow? then 1 else 0)
  }

  // The account and balance locks of a sequence appear in strictly increasing order.
  predicate Ordered(locks: seq<Resource>) {
    forall i, j | 0 <= i < j < |locks| && AccountLock(locks[i]) && AccountLock(locks[j]) ::
      Rank(locks[i]) < Rank(locks[j])
  }

  predicate NoAccountLock(locks: seq<Resource>) {
    forall i | 0 <= i < |locks| :: !AccountLock(locks[i])
  }

  lemma OrderedAfter(a: seq<Resource>, b: seq<Resource>)
    requires NoAccountLock(a) && Ordered(b)
    ensures Ordered(a + b)
  {
  }

  lemma OrderedBefore(a: seq<Resource>, b: seq<Resource>)
    requires Ordered(a) && NoAccountLock(b)
    ensures Ordered(a + b)
  {
  }

  lemma PairOrdered(a: AccountId, b: AccountId)
    requires a != b
    ensures Ordered(AccountLocks(a, b))
  {
  }

  lemma FreshOrdered(db: DB, input: RecordInput, env: Env)
    ensures Ordered(RecordFresh(db, input, env).locks)
  {
    if input.account != input.clearing { PairOrdered(input.account, input.clearing); }
  }

  lemma SettleOrdered(db: DB, id: TransferId, input: RecordInput, env: Env)
    requires id in db.transfers
    ensures Ordered(Settle(db, id, input, env).locks)
  {
    var row := db.transfers[id];
    if row.account != input.clearing {
      PairOrdered(row.account, input.clearing);
      OrderedBefore(AccountLocks(row.account, input.clearing), EventLocks(input));
    }
  }

  lemma UnlessSettledOrdered(db: DB, input: RecordInput, env: Env)
    ensures Ordered(RecordUnlessSettled(db, input, env).locks)
  {
    FreshOrdered(db, input, env);
    if env.settledPick.Some? {
      OrderedAfter([TransferRow(env.settledPick.value)], RecordFresh(db, input, env).locks);
    }
  }

  lemma ByReferenceOrdered(db: DB, input: RecordInput, env: Env)
    ensures Ordered(RecordByReference(db, input, env).locks)
  {
    UnlessSettledOrdered(db, input, env);
    if env.pendingPick.Some? {
      var pick := env.pendingPick.value;
      if PendingMatch(db, pick, input) {
        SettleOrdered(db, pick, input, env);
        OrderedAfter([TransferRow(pick)], Settle(db, pick, input, env).locks);
      } else {
        OrderedAfter([TransferRow(pick)], RecordUnlessSettled(db, input, env).locks);
      }
    }
  }

  lemma RecordOrdered(db: DB, input: RecordInput, env: Env)
    ensures Ordered(RecordTransfer(db, input, env).locks)
  {
    assert RecordTransfer(db, input, env) == Locked(ReplayLocks(input), Body(db, input, env));
    ByReferenceOrdered(db, input, env);
    FreshOrdered(db, input, env);
    OrderedAfter(ReplayLocks(input), Body(db, input, env).locks);
  }

  lemma CompleteOrdered(db: DB, id: TransferId, input: RecordInput, env: Env)
    ensures Ordered(CompleteOutbound(db, id, input, env).locks)
  {
    var head := EventLocks(input) + [TransferRow(id)];
    if id in db.transfers && db.transfers[id].account != input.clearing {
      var account := db.transfers[id].account;
      PairOrdered(account, input.clearing);
      OrderedAfter(head, AccountLocks(account, input.clearing));
    }
    OrderedAfter(head, []);
  }

  lemma RequeryOrdered(db: DB, id: TransferId, input: RecordInput, env: Env)
    ensures Ordered(RequeryTransfer(db, id, input, env).locks)
  {
    if id in db.transfers {
      var known := WithReference(db.transfers[id], input);
      CompleteOrdered(db, id, known, env);
      SettleOrdered(db, id, known, env);
      OrderedAfter([TransferRow(id)], RequeryPending(db, id, known, env).locks);
    }
  }

  lemma ReverseOrdered(db: DB, input: ReverseInput, env: Env)
    ensures Ordered(ReverseTransfer(db, input, env).locks)
  {
    if input.transfer in db.transfers {
      var original := db.transfers[input.transfer];
      if Counterparty(db, original).Some? {
        RecordOrdered(db, ReversalInput(original, Counterparty(db, original).value, input), env);
      }
      OrderedAfter([TransferRow(input.transfer)], ReverseOnce(db, original, input, env).locks);
    }
  }

  /** Every transaction asks for its account and balance rows in strictly increasing order. */
  lemma LocksOrdered(db: DB, op: Op, env: Env)
    ensures Ordered(Exec(db, op, env).locks)
  {
    match op
    case Record(input) => RecordOrdered(db, input, env);
    case Complete(id, input) => CompleteOrdered(db, id, input, env);
    case Requery(id, input) => RequeryOrdered(db, id, input, env);
    case Reverse(input) => ReverseOrdered(db, input, env);
    case _ =>
  }

  // Somebody who asks for these locks in this order, has got so many, and waits for the next.
  datatype Waiter = Waiter(locks: seq<Resource>, granted: nat)

  predicate Waiting(w: Waiter) {
    w.granted < |w.locks|
  }

  function Wanted(w: Waiter): Resource
    requires Waiting(w)
  {
    w.locks[w.granted]
  }

  predicate HoldsLock(w: Waiter, r: Resource)
    requires Waiting(w)
  {
    r in w.locks[..w.granted]
  }

  // Each waits for an account or balance row that the next one holds, and the last for the first.
  predicate WaitCycle(ring: seq<Waiter>) {
    && ring != []
    && (forall i | 0 <= i < |ring| :: Waiting(ring[i]) && AccountLock(Wanted(ring[i])))
    && (forall i | 0 <= i < |ring| - 1 :: HoldsLock(ring[i + 1], Wanted(ring[i])))
    && HoldsLock(ring[0], Wanted(ring[|ring| - 1]))
  }

  // Whoever holds what another waits for waits for something later.
  lemma HolderWantsLater(w: Waiter, holder: Waiter)
    requires Waiting(w) && AccountLock(Wanted(w)) && Waiting(holder) && AccountLock(Wanted(holder))
    requires HoldsLock(holder, Wanted(w)) && Ordered(holder.locks)
    ensures Rank(Wanted(w)) < Rank(Wanted(holder))
  {
  }

  lemma {:induction false} RanksRise(ranks: seq<nat>, i: nat)
    requires forall k | 0 <= k < |ranks| - 1 :: ranks[k] < ranks[k + 1]
    requires i < |ranks|
    ensures ranks[0] <= ranks[i]
  {
    if i > 0 { RanksRise(ranks, i - 1); }
  }

  lemma OrderedNeverCycle(ring: seq<Waiter>)
    requires forall i | 0 <= i < |ring| :: Ordered(ring[i].locks)
    ensures !WaitCycle(ring)
  {
    if WaitCycle(ring) {
      var ranks: seq<nat> := seq(|ring|, i requires 0 <= i < |ring| => Rank(Wanted(ring[i])));
      forall k | 0 <= k < |ranks| - 1 ensures ranks[k] < ranks[k + 1] { HolderWantsLater(ring[k], ring[k + 1]); }
      RanksRise(ranks, |ring| - 1);
      HolderWantsLater(ring[|ring| - 1], ring[0]);
      assert false;
    }
  }

  /** A transaction under way: the database it decides its locks from, and how many it has. */
  datatype Transaction = Transaction(db: DB, op: Op, env: Env, granted: nat)

  function WaiterOf(tx: Transaction): Waiter {
    Waiter(Exec(tx.db, tx.op, tx.env).locks, tx.granted)
  }

  function Waiters(txs: seq<Transaction>): seq<Waiter> {
    seq(|txs|, i requires 0 <= i < |txs| => WaiterOf(txs[i]))
  }

  /** Among any number of transactions, no wait-for cycle consists of account and balance
      rows only. */
  lemma NoAccountDeadlock(txs: seq<Transaction>)
    ensures !WaitCycle(Waiters(txs))
  {
    forall i | 0 <= i < |txs| ensures Ordered(Waiters(txs)[i].locks) {
      LocksOrdered(txs[i].db, txs[i].op, txs[i].env);
    }
    OrderedNeverCycle(Waiters(txs));
  }
}
