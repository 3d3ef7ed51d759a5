/** Concurrent transactions: each locks and reads one resource at a time while others
    commit, decides from what it read, commits or rolls back, and frees its locks at
    the end. A caller of a committed outbound request may then ask the provider. */
module Interleaving {
  import opened Types
  import opened Policy
  import opened Ledger
  import opened Transfers
  import opened Steps
  import opened Invariant
  import opened Decisions
  import opened Runs
  import opened ExactlyOnce
  import opened Funds
  import opened Deficits
  import opened Isolation
  import opened Confinement

  type TxId = nat

  // An open transaction with what it saw under each lock it holds.
  datatype Tx = Tx(op: Op, env: Env, views: map<Resource, Cell>)

  datatype Landed = Landed(call: Call, reply: Reply)

  datatype Sys = Sys(db: DB, active: map<TxId, Tx>, log: seq<Landed>, asked: set<nat>)

  datatype Action =
    | Begin(t: TxId, op: Op, env: Env)
    | Lock(t: TxId, resource: Resource)
    | Commit(t: TxId, seen: DB)
    | Abort(t: TxId)
    | Ask(n: nat)

  // The service looked the clearing account of an inbound request up before it began.
  predicate ClearingKnown(db: DB, op: Op) {
    (op.Record? || op.Requery?) && op.input.direction == Inbound ==>
      op.input.clearing in db.accounts && db.accounts[op.input.clearing].kind == Internal
  }

  predicate DistinctIds(x: Env, y: Env) {
    x.transfer != y.transfer && x.journal != y.journal && x.lien != y.lien && x.account != y.account
  }

  // Locking a row that is not there aborts; advisory keys are always there.
  predicate Lockable(db: DB, r: Resource) {
    match r
    case TransferRow(id) => id in db.transfers
    case AccountRow(a) => a in db.accounts
    case BalanceRow(a) => a in db.balances
    case LienRow(l) => l in db.liens
    case _ => true
  }

  // The database `seen` is one that looks, through every lock held, the way it looked when locked.
  predicate Consistent(seen: DB, tx: Tx) {
    forall r | r in tx.views :: View(seen, r) == tx.views[r]
  }

  predicate Enabled(sys: Sys, action: Action) {
    match action
    case Begin(t, op, env) =>
      && t !in sys.active
      && Admissible(sys.db, op, env) && ClearingKnown(sys.db, op)
      && forall u | u in sys.active :: DistinctIds(env, sys.active[u].env)
    case Lock(t, r) =>
      && t in sys.active
      && (forall u | u in sys.active :: r !in sys.active[u].views)
      && Lockable(sys.db, r)
    case Commit(t, seen) =>
      && t in sys.active
      && var tx := sys.active[t];
         && Consistent(seen, tx) && KeysOk(seen)
         && Exec(seen, tx.op, tx.env).reply.Done?
         && (forall r | r in Exec(seen, tx.op, tx.env).locks :: r in tx.views)
    case Abort(t) => t in sys.active
    case Ask(n) =>
      n < |sys.log| && n !in sys.asked
      && sys.log[n].call.op.Record? && sys.log[n].reply.Done? && sys.log[n].reply.created
  }

  function Next(sys: Sys, action: Action): Sys
    requires Enabled(sys, action)
  {
    match action
    case Begin(t, op, env) => sys.(active := sys.active[t := Tx(op, env, map[])])
    case Lock(t, r) =>
      sys.(active := sys.active[t := sys.active[t].(views := sys.active[t].views[r := View(sys.db, r)])])
    case Commit(t, seen) =>
      var tx := sys.active[t];
      var reply := Exec(seen, tx.op, tx.env).reply;
      sys.(db := Apply(sys.db, reply.change), active := sys.active - {t},
        log := sys.log + [Landed(Call(tx.op, tx.env), reply)])
    case Abort(t) => sys.(active := sys.active - {t})
    case Ask(n) => sys.(asked := sys.asked + {n})
  }

  predicate Behaves(sys: Sys, actions: seq<Action>)
    decreases |actions|
  {
    actions == [] || (Enabled(sys, actions[0]) && Behaves(Next(sys, actions[0]), actions[1..]))
  }

  function Play(sys: Sys, actions: seq<Action>): Sys
    requires Behaves(sys, actions)
    decreases |actions|
  {
    if actions == [] then sys else Play(Next(sys, actions[0]), actions[1..])
  }

  // ---- what holds of open transactions ---------------------------------------------

  predicate TxOk(db: DB, tx: Tx) {
    && Admissible(db, tx.op, tx.env) && ClearingKnown(db, tx.op)
    && forall r | r in tx.views :: Lockable(db, r) && View(db, r) == tx.views[r]
  }

  predicate Apart(x: Tx, y: Tx) {
    DistinctIds(x.env, y.env) && x.views.Keys !! y.views.Keys
  }

  ghost predicate SysOk(sys: Sys) {
    && Inv(sys.db)
    && (forall t {:trigger TxOk(sys.db, sys.active[t])} | t in sys.active :: TxOk(sys.db, sys.active[t]))
    && (forall t, u {:trigger Apart(sys.active[t], sys.active[u])} | t in sys.active && u in sys.active && t != u ::
          Apart(sys.active[t], sys.active[u]))
  }

  // ---- committing -------------------------------------------------------------------

  /** A transaction that commits decides what it would have decided alone, on the
      database as it is at that moment. */
  lemma CommitIsStep(sys: Sys, t: TxId, seen: DB)
    requires SysOk(sys) && Enabled(sys, Commit(t, seen))
    ensures var tx := sys.active[t];
            && Exec(seen, tx.op, tx.env) == Exec(sys.db, tx.op, tx.env)
            && Next(sys, Commit(t, seen)).db == Step(sys.db, tx.op, tx.env)
  {
    var tx := sys.active[t];
    assert TxOk(sys.db, tx);
    forall r | r in Exec(seen, tx.op, tx.env).locks ensures View(seen, r) == View(sys.db, r) {
    }
    ExecLocal(seen, sys.db, tx.op, tx.env);
  }

  predicate IdsFromEnv(change: Change, env: Env) {
    match change
    case Insert(id, _, entry, _, _) => id == env.transfer && (entry.Some? ==> entry.value.id == env.journal)
    case Advance(_, _, entry, _, _) => entry.Some? ==> entry.value.id == env.journal
    case PutLien(lien, _) => lien == env.lien
    case AddAccount(a, _) => a == env.account
    case _ => true
  }

  lemma SettleIds(db: DB, id: TransferId, input: RecordInput, env: Env)
    requires id in db.transfers
    ensures Settle(db, id, input, env).reply.Done? ==> IdsFromEnv(Settle(db, id, input, env).reply.change, env)
  {
  }

  lemma CompleteIds(db: DB, id: TransferId, input: RecordInput, env: Env)
    ensures CompleteOutbound(db, id, input, env).reply.Done? ==>
      IdsFromEnv(CompleteOutbound(db, id, input, env).reply.change, env)
  {
  }

  lemma FreshEnvIds(db: DB, input: RecordInput, env: Env)
    ensures RecordFresh(db, input, env).reply.Done? ==> IdsFromEnv(RecordFresh(db, input, env).reply.change, env)
  {
  }

  lemma RecordIds(db: DB, input: RecordInput, env: Env)
    ensures RecordTransfer(db, input, env).reply.Done? ==> IdsFromEnv(RecordTransfer(db, input, env).reply.change, env)
  {
    FreshEnvIds(db, input, env);
    if env.pendingPick.Some? && PendingMatch(db, env.pendingPick.value, input) {
      SettleIds(db, env.pendingPick.value, input, env);
    }
  }

  lemma RequeryIds(db: DB, id: TransferId, input: RecordInput, env: Env)
    ensures RequeryTransfer(db, id, input, env).reply.Done? ==>
      IdsFromEnv(RequeryTransfer(db, id, input, env).reply.change, env)
  {
    if id in db.transfers {
      var known := WithReference(db.transfers[id], input);
      CompleteIds(db, id, known, env);
      SettleIds(db, id, known, env);
    }
  }

  lemma CommittedIds(db: DB, op: Op, env: Env)
    requires Inv(db) && FreshIds(db, env)
    ensures IdsFromEnv(Committed(db, op, env), env)
  {
    if Exec(db, op, env).reply.Done? {
      match op
      case Record(input) => RecordIds(db, input, env);
      case Complete(id, input) => CompleteIds(db, id, input, env);
      case Requery(id, input) => RequeryIds(db, id, input, env);
      case Reverse(input) =>
        ReverseOk(db, input, env);
        if Committed(db, op, env).Insert? { ReversalRow(db, input, env); }
      case _ =>
    }
  }

  // Another transaction's fresh ids stay fresh, and its request stays admissible.
  lemma StaysAdmissible(db: DB, change: Change, env: Env, op: Op, other: Env)
    requires ChangeOk(db, change) && IdsFromEnv(change, env) && DistinctIds(env, other)
    requires Admissible(db, op, other) && ClearingKnown(db, op)
    ensures Admissible(Apply(db, change), op, other) && ClearingKnown(Apply(db, change), op)
  {
  }

  lemma StaysLockable(db: DB, next: DB, r: Resource)
    requires Evolves(db, next) && Lockable(db, r)
    requires db.balances.Keys <= next.balances.Keys && db.liens.Keys <= next.liens.Keys
    ensures Lockable(next, r)
  {
    if r.TransferRow? { assert RowEvolves(db, next, r.transfer); }
  }

  lemma KeepsBalancesAndLiens(db: DB, change: Change)
    requires ChangeOk(db, change) && AccountsOk(db) && AccountsOk(Apply(db, change))
    requires db.accounts.Keys <= Apply(db, change).accounts.Keys
    ensures db.balances.Keys <= Apply(db, change).balances.Keys && db.liens.Keys <= Apply(db, change).liens.Keys
  {
  }

  lemma ViewsUndisturbed(sys: Sys, t: TxId, u: TxId, next: DB)
    requires SysOk(sys) && t in sys.active && u in sys.active && u != t
    requires next == Step(sys.db, sys.active[t].op, sys.active[t].env)
    requires forall r | r in Exec(sys.db, sys.active[t].op, sys.active[t].env).locks :: r in sys.active[t].views
    ensures forall r | r in sys.active[u].views :: View(next, r) == sys.active[u].views[r]
  {
    var tx, other := sys.active[t], sys.active[u];
    assert TxOk(sys.db, tx) && TxOk(sys.db, other) && Apart(tx, other);
    forall r | r in other.views ensures View(next, r) == other.views[r] {
      assert r !in tx.views;
      assert !Created(tx.env, r);
      StepConfined(sys.db, tx.op, tx.env, r);
    }
  }

  lemma StillOk(sys: Sys, t: TxId, u: TxId, next: DB)
    requires SysOk(sys) && t in sys.active && u in sys.active && u != t
    requires next == Step(sys.db, sys.active[t].op, sys.active[t].env)
    ensures Admissible(next, sys.active[u].op, sys.active[u].env) && ClearingKnown(next, sys.active[u].op)
    ensures forall r | r in sys.active[u].views :: Lockable(next, r)
  {
    var tx, other := sys.active[t], sys.active[u];
    assert TxOk(sys.db, tx) && TxOk(sys.db, other) && Apart(tx, other);
    CommittedOk(sys.db, tx.op, tx.env);
    CommittedIds(sys.db, tx.op, tx.env);
    StepEvolves(sys.db, tx.op, tx.env);
    KeepsBalancesAndLiens(sys.db, Committed(sys.db, tx.op, tx.env));
    StaysAdmissible(sys.db, Committed(sys.db, tx.op, tx.env), tx.env, other.op, other.env);
    forall r | r in other.views ensures Lockable(next, r) { StaysLockable(sys.db, next, r); }
  }

  lemma OthersUndisturbed(sys: Sys, t: TxId, seen: DB, u: TxId)
    requires SysOk(sys) && Enabled(sys, Commit(t, seen)) && u in sys.active && u != t
    ensures TxOk(Next(sys, Commit(t, seen)).db, sys.active[u])
  {
    var next := Next(sys, Commit(t, seen)).db;
    CommitIsStep(sys, t, seen);
    StillOk(sys, t, u, next);
    ViewsUndisturbed(sys, t, u, next);
  }

  lemma CommitKeepsOk(sys: Sys, t: TxId, seen: DB)
    requires SysOk(sys) && Enabled(sys, Commit(t, seen))
    ensures SysOk(Next(sys, Commit(t, seen)))
  {
    var next := Next(sys, Commit(t, seen));
    CommitIsStep(sys, t, seen);
    assert TxOk(sys.db, sys.active[t]);
    StepKeepsInv(sys.db, sys.active[t].op, sys.active[t].env);
    forall u | u in next.active ensures TxOk(next.db, next.active[u]) { OthersUndisturbed(sys, t, seen, u); }
    forall u, v | u in next.active && v in next.active && u != v ensures Apart(next.active[u], next.active[v]) {
      assert Apart(sys.active[u], sys.active[v]);
    }
  }

  lemma LocalActionKeepsOk(sys: Sys, action: Action)
    requires SysOk(sys) && Enabled(sys, action) && !action.Commit?
    ensures SysOk(Next(sys, action))
  {
    var next := Next(sys, action);
    forall u | u in next.active ensures TxOk(next.db, next.active[u]) {
      if u in sys.active { assert TxOk(sys.db, sys.active[u]); }
    }
    forall u, v | u in next.active && v in next.active && u != v ensures Apart(next.active[u], next.active[v]) {
      if u in sys.active && v in sys.active { assert Apart(sys.active[u], sys.active[v]); }
    }
  }

  // ---- every interleaving is a run in commit order ---------------------------------------

  function Calls(log: seq<Landed>): seq<Call> {
    seq(|log|, i requires 0 <= i < |log| => log[i].call)
  }

  lemma {:induction false} RunAppend(db: DB, calls: seq<Call>, last: Call)
    ensures Run(db, calls + [last]) == Step(Run(db, calls), last.op, last.env)
    decreases |calls|
  {
    if calls == [] {
      assert calls + [last] == [last];
      assert [last][1..] == [];
    } else {
      assert (calls + [last])[1..] == calls[1..] + [last];
      RunAppend(Step(db, calls[0].op, calls[0].env), calls[1..], last);
    }
  }

  lemma {:induction false} ServiceRunAppend(db: DB, calls: seq<Call>, last: Call)
    requires ServiceRun(db, calls)
    requires Admissible(Run(db, calls), last.op, last.env) && ClearingInternal(Run(db, calls), last.op)
    ensures ServiceRun(db, calls + [last])
    decreases |calls|
  {
    if calls == [] {
      assert calls + [last] == [last];
      assert [last][1..] == [];
    } else {
      assert (calls + [last])[1..] == calls[1..] + [last];
      ServiceRunAppend(Step(db, calls[0].op, calls[0].env), calls[1..], last);
    }
  }

  lemma {:induction false} ServiceIsAdmissible(db: DB, calls: seq<Call>)
    requires ServiceRun(db, calls)
    ensures AdmissibleRun(db, calls)
    decreases |calls|
  {
    if calls != [] { ServiceIsAdmissible(Step(db, calls[0].op, calls[0].env), calls[1..]); }
  }

  // Replaying the log one transaction at a time gives this database and every reply it holds.
  predicate Replays(origin: DB, db: DB, log: seq<Landed>) {
    && ServiceRun(origin, Calls(log))
    && db == Run(origin, Calls(log))
    && forall i | 0 <= i < |log| ::
      log[i].reply == Exec(Run(origin, Calls(log)[..i]), log[i].call.op, log[i].call.env).reply
  }

  predicate Serial(origin: DB, sys: Sys) {
    Replays(origin, sys.db, sys.log)
  }

  lemma LogGrows(origin: DB, db: DB, log: seq<Landed>, last: Landed)
    requires Replays(origin, db, log)
    requires Admissible(db, last.call.op, last.call.env) && ClearingInternal(db, last.call.op)
    requires last.reply == Exec(db, last.call.op, last.call.env).reply
    ensures Replays(origin, Step(db, last.call.op, last.call.env), log + [last])
  {
    var calls := Calls(log);
    assert Calls(log + [last]) == calls + [last.call];
    RunAppend(origin, calls, last.call);
    ServiceRunAppend(origin, calls, last.call);
    forall i | 0 <= i < |log| + 1 ensures Calls(log + [last])[..i] == calls[..i] {
    }
    assert calls[..|calls|] == calls;
  }

  lemma CommitKeepsSerial(origin: DB, sys: Sys, t: TxId, seen: DB)
    requires SysOk(sys) && Serial(origin, sys) && Enabled(sys, Commit(t, seen))
    ensures Serial(origin, Next(sys, Commit(t, seen)))
  {
    var tx := sys.active[t];
    CommitIsStep(sys, t, seen);
    assert TxOk(sys.db, tx);
    LogGrows(origin, sys.db, sys.log, Landed(Call(tx.op, tx.env), Exec(sys.db, tx.op, tx.env).reply));
  }

  lemma {:induction false} PlaySerial(origin: DB, sys: Sys, actions: seq<Action>)
    requires SysOk(sys) && Serial(origin, sys) && Behaves(sys, actions)
    ensures SysOk(Play(sys, actions)) && Serial(origin, Play(sys, actions))
    decreases |actions|
  {
    if actions != [] {
      var next := Next(sys, actions[0]);
      if actions[0].Commit? {
        CommitKeepsOk(sys, actions[0].t, actions[0].seen);
        CommitKeepsSerial(origin, sys, actions[0].t, actions[0].seen);
      } else {
        LocalActionKeepsOk(sys, actions[0]);
      }
      PlaySerial(origin, next, actions[1..]);
    }
  }

  // Nothing open, nothing logged, nothing asked.
  function Quiet(db: DB): Sys {
    Sys(db, map[], [], {})
  }

  /** Serialisability: however concurrent transactions interleave, the database they leave
      behind and every reply they gave are those of running the committed ones one at a
      time, in the order they committed. */
  lemma Serialised(db: DB, actions: seq<Action>)
    requires Inv(db) && Behaves(Quiet(db), actions)
    ensures var end := Play(Quiet(db), actions);
            && ServiceRun(db, Calls(end.log)) && AdmissibleRun(db, Calls(end.log))
            && end.db == Run(db, Calls(end.log)) && Inv(end.db)
            && forall i | 0 <= i < |end.log| ::
                 end.log[i].reply == Exec(Run(db, Calls(end.log)[..i]), end.log[i].call.op, end.log[i].call.env).reply
  {
    PlaySerial(db, Quiet(db), actions);
    ServiceIsAdmissible(db, Calls(Play(Quiet(db), actions).log));
  }

  // ---- exactly once, under any interleaving -------------------------------------------

  // Two different steps that satisfy p count twice.
  lemma {:induction false} CountPair(db: DB, calls: seq<Call>, p: (DB, Op, Env) -> bool, i: nat, j: nat)
    requires i < j < |calls|
    requires p(Run(db, calls[..i]), calls[i].op, calls[i].env) && p(Run(db, calls[..j]), calls[j].op, calls[j].env)
    ensures Count(db, calls, p) >= 2
    decreases |calls|
  {
    var next := Step(db, calls[0].op, calls[0].env);
    assert calls[..j][1..] == calls[1..][..j - 1];
    if i == 0 {
      assert calls[..0] == [];
      CountOneMore(next, calls[1..], p, j - 1);
    } else {
      assert calls[..i][1..] == calls[1..][..i - 1];
      CountPair(next, calls[1..], p, i - 1, j - 1);
    }
  }

  lemma {:induction false} CountOneMore(db: DB, calls: seq<Call>, p: (DB, Op, Env) -> bool, j: nat)
    requires j < |calls| && p(Run(db, calls[..j]), calls[j].op, calls[j].env)
    ensures Count(db, calls, p) >= 1
    decreases |calls|
  {
    if j == 0 {
      assert calls[..0] == [];
    } else {
      assert calls[..j][1..] == calls[1..][..j - 1];
      CountOneMore(Step(db, calls[0].op, calls[0].env), calls[1..], p, j - 1);
    }
  }

  predicate CreatedUnder(landed: Landed, key: Key) {
    KeyOf(landed.call.op) == Some(key) && landed.reply.Done? && landed.reply.created
  }

  /** However callers with the same idempotency key race, at most one is told created = true. */
  lemma OneCallerCreates(db: DB, actions: seq<Action>, key: Key, i: nat, j: nat)
    requires Inv(db) && Behaves(Quiet(db), actions)
    requires var log := Play(Quiet(db), actions).log;
             i < |log| && j < |log| && CreatedUnder(log[i], key) && CreatedUnder(log[j], key)
    ensures i == j
  {
    var log := Play(Quiet(db), actions).log;
    Serialised(db, actions);
    OneCreationPerKey(db, Calls(log), key);
    OnceInLog(db, log, CreatesWith(key), i, j);
  }

  predicate AskedCreated(sys: Sys) {
    forall n | n in sys.asked ::
      n < |sys.log| && sys.log[n].call.op.Record? && sys.log[n].reply.Done? && sys.log[n].reply.created
  }

  lemma {:induction false} PlayAsks(sys: Sys, actions: seq<Action>)
    requires Behaves(sys, actions) && AskedCreated(sys)
    ensures AskedCreated(Play(sys, actions))
    decreases |actions|
  {
    if actions != [] { PlayAsks(Next(sys, actions[0]), actions[1..]); }
  }

  /** The provider is asked to initiate at most once per idempotency key, even when a
      caller disappears between its request and its completion. */
  lemma ProviderAskedOnce(db: DB, actions: seq<Action>, m: nat, n: nat)
    requires Inv(db) && Behaves(Quiet(db), actions)
    requires var end := Play(Quiet(db), actions); m in end.asked && n in end.asked
    ensures m < |Play(Quiet(db), actions).log| && n < |Play(Quiet(db), actions).log|
    ensures var log := Play(Quiet(db), actions).log;
            KeyOf(log[m].call.op) == KeyOf(log[n].call.op) ==> m == n
  {
    PlayAsks(Quiet(db), actions);
    var log := Play(Quiet(db), actions).log;
    if KeyOf(log[m].call.op) == KeyOf(log[n].call.op) {
      OneCallerCreates(db, actions, KeyOf(log[m].call.op).value, m, n);
    }
  }

  /** However completion, requery and settlement of one transfer race, at most one of the
      transactions that commit makes it final. */
  lemma OneTransactionFinalises(db: DB, actions: seq<Action>, id: TransferId, i: nat, j: nat)
    requires Inv(db) && Behaves(Quiet(db), actions)
    requires var log := Play(Quiet(db), actions).log;
             && i < |log| && j < |log|
             && Settles(id)(Run(db, Calls(log)[..i]), log[i].call.op, log[i].call.env)
             && Settles(id)(Run(db, Calls(log)[..j]), log[j].call.op, log[j].call.env)
    ensures i == j
  {
    var log := Play(Quiet(db), actions).log;
    Serialised(db, actions);
    OneFinalisation(db, Calls(log), id);
    OnceInLog(db, log, Settles(id), i, j);
  }

  // Two committed transactions of a log that both do what is done at most once in a run are one.
  lemma OnceInLog(db: DB, log: seq<Landed>, p: (DB, Op, Env) -> bool, i: nat, j: nat)
    requires i < |log| && j < |log| && Count(db, Calls(log), p) <= 1
    requires p(Run(db, Calls(log)[..i]), log[i].call.op, log[i].call.env)
    requires p(Run(db, Calls(log)[..j]), log[j].call.op, log[j].call.env)
    ensures i == j
  {
    if i < j { CountPair(db, Calls(log), p, i, j); }
    if j < i { CountPair(db, Calls(log), p, j, i); }
  }

  /** Nor does more than one of them end its hold. */
  lemma OneTransactionEndsHold(db: DB, actions: seq<Action>, id: TransferId, i: nat, j: nat)
    requires Inv(db) && Behaves(Quiet(db), actions)
    requires var log := Play(Quiet(db), actions).log;
             && i < |log| && j < |log|
             && HoldEnds(id)(Run(db, Calls(log)[..i]), log[i].call.op, log[i].call.env)
             && HoldEnds(id)(Run(db, Calls(log)[..j]), log[j].call.op, log[j].call.env)
    ensures i == j
  {
    var log := Play(Quiet(db), actions).log;
    Serialised(db, actions);
    OneHoldExit(db, Calls(log), id);
    OnceInLog(db, log, HoldEnds(id), i, j);
  }

  /** And however deliveries of one provider event race, at most one of them posts a journal. */
  lemma OneTransactionPostsEvent(db: DB, actions: seq<Action>, event: EventKey, i: nat, j: nat)
    requires Inv(db) && Behaves(Quiet(db), actions)
    requires var log := Play(Quiet(db), actions).log;
             && i < |log| && j < |log|
             && PostsWith(event)(Run(db, Calls(log)[..i]), log[i].call.op, log[i].call.env)
             && PostsWith(event)(Run(db, Calls(log)[..j]), log[j].call.op, log[j].call.env)
    ensures i == j
  {
    var log := Play(Quiet(db), actions).log;
    Serialised(db, actions);
    OnePostingPerEvent(db, Calls(log), event);
    OnceInLog(db, log, PostsWith(event), i, j);
  }

  /** The cached balances reconcile with postings and holds after any interleaving. */
  lemma InterleavedReconciles(db: DB, actions: seq<Action>, a: AccountId)
    requires Initial(db) && Behaves(Quiet(db), actions) && a in Play(Quiet(db), actions).db.accounts
    ensures var now := Play(Quiet(db), actions).db;
            a in now.balances && now.balances[a].ledger == PostedSum(now, a)
            && now.balances[a].available == now.balances[a].ledger - HeldSum(now, a)
  {
    InitialInv(db);
    Serialised(db, actions);
    assert MoneyAt(Play(Quiet(db), actions).db, a);
  }

  /** However transactions interleave, as long as no committed reversal took more than the
      account had available, what is held on a customer account without overdraft never
      exceeds its ledger. */
  lemma InterleavedHoldsCovered(db: DB, actions: seq<Action>, a: AccountId)
    requires Inv(db) && !BelowZero(db, a) && Behaves(Quiet(db), actions)
    requires var end := Play(Quiet(db), actions);
             && !EverUncovered(db, Calls(end.log), a)
             && a in end.db.accounts && Restricted(end.db.accounts[a])
    ensures var now := Play(Quiet(db), actions).db;
            a in now.balances && 0 <= now.balances[a].available && HeldSum(now, a) <= now.balances[a].ledger
  {
    Serialised(db, actions);
    HoldsCovered(db, Calls(Play(Quiet(db), actions).log), a);
  }
}
