/** What happens at most once in a run, and what a replay gets. */
module ExactlyOnce {
  import opened Types
  import opened Policy
  import opened Ledger
  import opened Transfers
  import opened Steps
  import opened Invariant
  import opened Decisions
  import opened Runs

  // How many steps of a run satisfy p in the state they start from.
  ghost function Count(db: DB, calls: seq<Call>, p: (DB, Op, Env) -> bool): nat
    decreases |calls|
  {
    if calls == [] then 0
    else (if p(db, calls[0].op, calls[0].env) then 1 else 0)
         + Count(Step(db, calls[0].op, calls[0].env), calls[1..], p)
  }

  /** A step that throws a switch which never goes back is taken at most once. */
  lemma {:induction false} CountOnce(db: DB, calls: seq<Call>, p: (DB, Op, Env) -> bool, thrown: DB -> bool)
    requires Inv(db) && AdmissibleRun(db, calls)
    requires forall d, op, env :: Inv(d) && Admissible(d, op, env) && p(d, op, env) ==>
      !thrown(d) && thrown(Step(d, op, env))
    requires forall d, e :: Evolves(d, e) && thrown(d) ==> thrown(e)
    ensures Count(db, calls, p) <= (if thrown(db) then 0 else 1)
    decreases |calls|
  {
    if calls != [] {
      var next := Step(db, calls[0].op, calls[0].env);
      StepEvolves(db, calls[0].op, calls[0].env);
      CountOnce(next, calls[1..], p, thrown);
    }
  }

  // ---- one transfer per idempotency key ------------------------------------------

  function KeyOf(op: Op): Option<Key> {
    match op
    case Record(input) => Some(input.key)
    case Reverse(input) => Some(input.key)
    case Review(input) => Some(input.key)
    case _ => None
  }

  // The step answers created = true for a transfer with this key.
  ghost function CreatesWith(key: Key): (DB, Op, Env) -> bool {
    (db: DB, op: Op, env: Env) => KeyOf(op) == Some(key) && Exec(db, op, env).reply.Done?
      && Exec(db, op, env).reply.created
  }

  ghost function KeyTaken(key: Key): DB -> bool {
    (db: DB) => key in db.byKey
  }

  lemma FreshCreates(db: DB, input: RecordInput, env: Env)
    requires RecordFresh(db, input, env).reply.Done? && RecordFresh(db, input, env).reply.created
    ensures var reply := RecordFresh(db, input, env).reply;
            && reply.change.Insert? && reply.change.id == reply.id
            && reply.change.row.key == input.key && reply.change.row.fingerprint == FingerprintOf(input)
  {
  }

  lemma SettleCreatesNothing(db: DB, id: TransferId, input: RecordInput, env: Env)
    requires id in db.transfers && Settle(db, id, input, env).reply.Done?
    ensures !Settle(db, id, input, env).reply.created
  {
  }

  // recordTransfer either replays, settles, or inserts.
  lemma CreatedIsFresh(db: DB, input: RecordInput, env: Env)
    requires RecordTransfer(db, input, env).reply.Done? && RecordTransfer(db, input, env).reply.created
    ensures !(input.key in db.byKey && db.byKey[input.key] in db.transfers)
    ensures RecordTransfer(db, input, env).reply == RecordFresh(db, input, env).reply
  {
    if env.pendingPick.Some? && PendingMatch(db, env.pendingPick.value, input) {
      var id := env.pendingPick.value;
      if Settle(db, id, input, env).reply.Done? { SettleCreatesNothing(db, id, input, env); }
    }
  }

  lemma RecordCreates(db: DB, input: RecordInput, env: Env)
    requires KeysOk(db)
    requires RecordTransfer(db, input, env).reply.Done? && RecordTransfer(db, input, env).reply.created
    ensures var reply := RecordTransfer(db, input, env).reply;
            && input.key !in db.byKey
            && reply.change.Insert? && reply.change.id == reply.id
            && reply.change.row.key == input.key && reply.change.row.fingerprint == FingerprintOf(input)
  {
    assert input.key in db.byKey ==> KeyOk(db, input.key);
    CreatedIsFresh(db, input, env);
    FreshCreates(db, input, env);
  }

  lemma ReviewCreates(db: DB, input: ReviewInput, env: Env)
    requires KeysOk(db)
    requires RecordReview(db, input, env).reply.Done? && RecordReview(db, input, env).reply.created
    ensures var reply := RecordReview(db, input, env).reply;
            input.key !in db.byKey && reply.change.Insert? && reply.change.id == reply.id
              && reply.change.row.key == input.key
  {
    assert input.key in db.byKey ==> KeyOk(db, input.key);
  }

  lemma ReverseCreates(db: DB, input: ReverseInput, env: Env)
    requires Inv(db) && FreshIds(db, env)
    requires ReverseTransfer(db, input, env).reply.Done? && ReverseTransfer(db, input, env).reply.created
    ensures var reply := ReverseTransfer(db, input, env).reply;
            input.key !in db.byKey && reply.change.Insert? && reply.change.id == reply.id
              && reply.change.row.key == input.key
  {
    ReverseOk(db, input, env);
    var original := db.transfers[input.transfer];
    var record := ReversalInput(original, Counterparty(db, original).value, input);
    RecordCreates(db, record, env);
  }

  lemma CreationInserts(db: DB, op: Op, env: Env)
    requires Inv(db) && Admissible(db, op, env) && KeyOf(op).Some?
    requires Exec(db, op, env).reply.Done? && Exec(db, op, env).reply.created
    ensures var reply := Exec(db, op, env).reply;
            KeyOf(op).value !in db.byKey && reply.change.Insert? && reply.change.id == reply.id
            && reply.change.row.key == KeyOf(op).value
  {
    match op
    case Record(input) => RecordCreates(db, input, env);
    case Reverse(input) => ReverseCreates(db, input, env);
    case Review(input) => ReviewCreates(db, input, env);
  }

  /** Over any run, at most one step answers created = true for a key; none does once the key is taken. */
  lemma OneCreationPerKey(db: DB, calls: seq<Call>, key: Key)
    requires Inv(db) && AdmissibleRun(db, calls)
    ensures Count(db, calls, CreatesWith(key)) <= (if key in db.byKey then 0 else 1)
  {
    forall d, op, env | Inv(d) && Admissible(d, op, env) && CreatesWith(key)(d, op, env)
      ensures !KeyTaken(key)(d) && KeyTaken(key)(Step(d, op, env))
    {
      CreationInserts(d, op, env);
    }
    CountOnce(db, calls, CreatesWith(key), KeyTaken(key));
  }

  // At most one row ever carries a key.
  lemma OneRowPerKey(db: DB, x: TransferId, y: TransferId)
    requires Inv(db) && x in db.transfers && y in db.transfers && db.transfers[x].key == db.transfers[y].key
    ensures x == y
  {
    assert Keyed(db, x) && Keyed(db, y);
  }

  // ---- one posting per provider event ----------------------------------------------

  // The provider event a request carries, if any.
  function EventOf(db: DB, op: Op): Option<EventKey> {
    match op
    case Record(input) => KeyFor(input.provider, input.event)
    case Complete(_, input) => KeyFor(input.provider, input.event)
    case Requery(_, input) => KeyFor(input.provider, input.event)
    case Reverse(input) =>
      if input.provider.Some? then KeyFor(input.provider.value, input.event)
      else if input.transfer in db.transfers then KeyFor(db.transfers[input.transfer].provider, input.event)
      else None
    case Review(input) => KeyFor(input.provider, Some(input.event))
    case _ => None
  }

  function KeyFor(provider: Provider, event: Option<EventId>): Option<EventKey> {
    if event.Some? then Some(EventKey(provider, event.value)) else None
  }

  ghost function PostsWith(event: EventKey): (DB, Op, Env) -> bool {
    (db: DB, op: Op, env: Env) => EventOf(db, op) == Some(event) && Step(db, op, env).journals != db.journals
  }

  ghost function EventSeen(event: EventKey): DB -> bool {
    (db: DB) => event in db.events
  }

  predicate ReservesEvent(db: DB, reply: Reply, event: EventKey) {
    reply.Done? && (reply.change.Insert? || reply.change.Advance?) && reply.change.entry.Some? ==>
      event !in db.events && reply.change.event.Some? && reply.change.event.value.key == event
  }

  lemma RecordReserves(db: DB, input: RecordInput, env: Env)
    requires input.event.Some?
    ensures ReservesEvent(db, RecordTransfer(db, input, env).reply, EventKey(input.provider, input.event.value))
  {
  }

  lemma CompleteReserves(db: DB, id: TransferId, input: RecordInput, env: Env)
    requires input.event.Some?
    ensures ReservesEvent(db, CompleteOutbound(db, id, input, env).reply, EventKey(input.provider, input.event.value))
  {
  }

  lemma SettleReserves(db: DB, id: TransferId, input: RecordInput, env: Env)
    requires input.event.Some? && id in db.transfers
    ensures ReservesEvent(db, Settle(db, id, input, env).reply, EventKey(input.provider, input.event.value))
  {
  }

  lemma RequeryReserves(db: DB, id: TransferId, input: RecordInput, env: Env)
    requires input.event.Some?
    ensures ReservesEvent(db, RequeryTransfer(db, id, input, env).reply, EventKey(input.provider, input.event.value))
  {
    if id in db.transfers {
      var known := WithReference(db.transfers[id], input);
      CompleteReserves(db, id, known, env);
      SettleReserves(db, id, known, env);
    }
  }

  lemma ReverseReserves(db: DB, input: ReverseInput, env: Env, event: EventKey)
    requires EventOf(db, Reverse(input)) == Some(event)
    ensures ReservesEvent(db, ReverseTransfer(db, input, env).reply, event)
  {
    if input.transfer in db.transfers {
      var original := db.transfers[input.transfer];
      if Counterparty(db, original).Some? {
        RecordReserves(db, ReversalInput(original, Counterparty(db, original).value, input), env);
      }
    }
  }

  lemma ExecReserves(db: DB, op: Op, env: Env, event: EventKey)
    requires EventOf(db, op) == Some(event)
    ensures ReservesEvent(db, Exec(db, op, env).reply, event)
  {
    match op
    case Record(input) => RecordReserves(db, input, env);
    case Complete(id, input) => CompleteReserves(db, id, input, env);
    case Requery(id, input) => RequeryReserves(db, id, input, env);
    case Reverse(input) => ReverseReserves(db, input, env, event);
    case Review(_) =>
  }

  // Journals are added only by an insert or an advance that posts an entry.
  lemma JournalsMove(db: DB, change: Change)
    requires Apply(db, change).journals != db.journals
    ensures (change.Insert? || change.Advance?) && change.entry.Some?
  {
  }

  // A step that carries an event and posts is the one that puts the event on record.
  lemma PostingReserves(db: DB, op: Op, env: Env, event: EventKey)
    requires EventOf(db, op) == Some(event)
    requires Step(db, op, env).journals != db.journals
    ensures event !in db.events && event in Step(db, op, env).events
  {
    ExecReserves(db, op, env, event);
    JournalsMove(db, Committed(db, op, env));
  }

  /** Over any run, at most one step that carries a given provider event posts a journal,
      whatever keys and payloads its deliveries carry. */
  lemma OnePostingPerEvent(db: DB, calls: seq<Call>, event: EventKey)
    requires Inv(db) && AdmissibleRun(db, calls)
    ensures Count(db, calls, PostsWith(event)) <= (if event in db.events then 0 else 1)
  {
    forall d, op, env | Inv(d) && Admissible(d, op, env) && PostsWith(event)(d, op, env)
      ensures !EventSeen(event)(d) && EventSeen(event)(Step(d, op, env))
    {
      PostingReserves(d, op, env, event);
    }
    CountOnce(db, calls, PostsWith(event), EventSeen(event));
  }

  // ---- one finalisation, one journal, one hold exit ----------------------------------

  ghost function Settled(id: TransferId): DB -> bool {
    (db: DB) => id in db.transfers && Final(db.transfers[id])
  }

  ghost function Settles(id: TransferId): (DB, Op, Env) -> bool {
    (db: DB, op: Op, env: Env) => !Settled(id)(db) && Settled(id)(Step(db, op, env))
  }

  /** However completion, requery, settlement by reference and replays follow each other,
      at most one of them makes a transfer final. */
  lemma OneFinalisation(db: DB, calls: seq<Call>, id: TransferId)
    requires Inv(db) && AdmissibleRun(db, calls)
    ensures Count(db, calls, Settles(id)) <= (if Settled(id)(db) then 0 else 1)
  {
    forall d, e | Evolves(d, e) && Settled(id)(d) ensures Settled(id)(e) {
      assert RowEvolves(d, e, id);
    }
    CountOnce(db, calls, Settles(id), Settled(id));
  }

  ghost function HoldGone(id: TransferId): DB -> bool {
    (db: DB) => id in db.holds && id in db.transfers && Final(db.transfers[id])
  }

  // The transfer's hold stops being active in this step.
  ghost function HoldEnds(id: TransferId): (DB, Op, Env) -> bool {
    (db: DB, op: Op, env: Env) => ActiveHold(db, id) && !ActiveHold(Step(db, op, env), id)
  }

  lemma OneHoldExit(db: DB, calls: seq<Call>, id: TransferId)
    requires Inv(db) && AdmissibleRun(db, calls)
    ensures Count(db, calls, HoldEnds(id)) <= 1
  {
    forall d, e | Evolves(d, e) && HoldGone(id)(d) ensures HoldGone(id)(e) {
      assert RowEvolves(d, e, id);
    }
    forall d, op, env | Inv(d) && Admissible(d, op, env) && HoldEnds(id)(d, op, env)
      ensures !HoldGone(id)(d) && HoldGone(id)(Step(d, op, env))
    {
      var next := Step(d, op, env);
      StepEvolves(d, op, env);
      assert HoldOk(d, id);
      assert RowEvolves(d, next, id);
      assert HoldOk(next, id);
    }
    CountOnce(db, calls, HoldEnds(id), HoldGone(id));
  }

  /** A succeeded transfer owns exactly one journal; a pending or failed one owns none. */
  lemma JournalOwnership(db: DB, id: TransferId)
    requires Inv(db) && id in db.transfers
    ensures db.transfers[id].status == Succeeded ==>
      Posts(db, id)
      && forall j | j in db.journals :: db.journals[j].transfer == id <==> Some(j) == db.transfers[id].journal
    ensures db.transfers[id].status != Succeeded ==> forall j | j in db.journals :: db.journals[j].transfer != id
  {
    assert RowOk(db, id);
    forall j | j in db.journals ensures db.journals[j].transfer == id ==> db.transfers[id].journal == Some(j) {
      assert JournalOk(db, j);
    }
  }

  /** The hold of an outbound transfer that was pending at some point: same account and amount
      ever after, active exactly while it is pending, consumed when it succeeded, released when it failed. */
  lemma HoldLifecycle(db: DB, calls: seq<Call>, id: TransferId)
    requires Inv(db) && AdmissibleRun(db, calls)
    requires id in db.transfers && HoldsFunds(db.transfers[id]) && db.transfers[id].status == Pending
    ensures var later := Run(db, calls);
            && id in later.holds && id in later.transfers
            && later.holds[id].account == db.transfers[id].account && later.holds[id].amount == db.transfers[id].amount
            && HoldTracks(later.holds[id].status, later.transfers[id].status)
  {
    RunEvolves(db, calls);
    var later := Run(db, calls);
    assert PendingHeld(db, id) && HoldOk(db, id) && RowEvolves(db, later, id) && HoldOk(later, id);
  }

  // Only outbound transfers that reverse nothing are held for.
  lemma OnlyOutboundHeld(db: DB, id: TransferId)
    requires Inv(db) && id in db.holds
    ensures id in db.transfers && db.transfers[id].direction == Outbound && db.transfers[id].reversalOf.None?
  {
    assert HoldOk(db, id);
  }

  predicate PendingOutbound(db: DB, id: TransferId) {
    id in db.transfers && HoldsFunds(db.transfers[id]) && db.transfers[id].status == Pending
  }

  // The transfer is a pending outbound one at some point of the run.
  predicate EverPending(db: DB, calls: seq<Call>, id: TransferId)
    decreases |calls|
  {
    PendingOutbound(db, id) || (calls != [] && EverPending(Step(db, calls[0].op, calls[0].env), calls[1..], id))
  }

  // A hold comes into being with a pending outbound transfer.
  lemma HoldOpensPending(db: DB, change: Change, next: DB, id: TransferId)
    requires ChangeOk(db, change) && next == Apply(db, change) && id !in db.holds && id in next.holds
    ensures PendingOutbound(next, id)
  {
  }

  /** A transfer has a hold at the end of a run that began without one if and only if it was a
      pending outbound transfer at some point: one recorded as final at once never has. */
  lemma {:induction false} HeldIffEverPending(db: DB, calls: seq<Call>, id: TransferId)
    requires Inv(db) && AdmissibleRun(db, calls) && id !in db.holds
    ensures id in Run(db, calls).holds <==> EverPending(db, calls, id)
    decreases |calls|
  {
    assert id in db.transfers ==> PendingHeld(db, id);
    if calls != [] {
      var op, env := calls[0].op, calls[0].env;
      var next := Step(db, op, env);
      CommittedOk(db, op, env);
      StepKeepsInv(db, op, env);
      if id in next.holds {
        HoldOpensPending(db, Committed(db, op, env), next, id);
        HoldLifecycle(next, calls[1..], id);
      } else {
        HeldIffEverPending(next, calls[1..], id);
      }
    }
  }

  // ---- replays ---------------------------------------------------------------------

  // This key leads to this row, which was made for this payload.
  predicate MadeFor(db: DB, id: TransferId, key: Key, fingerprint: Fingerprint) {
    Find(db.byKey, key) == Some(id) && id in db.transfers && db.transfers[id].fingerprint == fingerprint
  }

  lemma CreatedMade(db: DB, input: RecordInput, env: Env)
    requires KeysOk(db) && Exec(db, Record(input), env).reply.Done? && Exec(db, Record(input), env).reply.created
    ensures MadeFor(Step(db, Record(input), env), Exec(db, Record(input), env).reply.id, input.key,
      FingerprintOf(input))
  {
    RecordCreates(db, input, env);
  }

  lemma MadeStays(db: DB, calls: seq<Call>, id: TransferId, key: Key, fingerprint: Fingerprint)
    requires Inv(db) && AdmissibleRun(db, calls) && MadeFor(db, id, key, fingerprint)
    ensures MadeFor(Run(db, calls), id, key, fingerprint)
  {
    RunEvolves(db, calls);
    assert RowEvolves(db, Run(db, calls), id);
  }

  // The row a request created carries its key and fingerprint ever after.
  lemma CreatedStays(db: DB, input: RecordInput, env: Env, calls: seq<Call>)
    requires Inv(db) && Admissible(db, Record(input), env)
    requires Exec(db, Record(input), env).reply.Done? && Exec(db, Record(input), env).reply.created
    requires AdmissibleRun(Step(db, Record(input), env), calls)
    ensures MadeFor(Run(Step(db, Record(input), env), calls), Exec(db, Record(input), env).reply.id, input.key,
      FingerprintOf(input))
  {
    CreatedMade(db, input, env);
    StepKeepsInv(db, Record(input), env);
    MadeStays(Step(db, Record(input), env), calls, Exec(db, Record(input), env).reply.id, input.key,
      FingerprintOf(input));
  }

  lemma ReplayAt(later: DB, id: TransferId, input: RecordInput, again: Env)
    requires Find(later.byKey, input.key) == Some(id) && id in later.transfers
    requires later.transfers[id].fingerprint != NoFingerprint
    ensures Exec(later, Record(input), again).reply
         == (if later.transfers[id].fingerprint == FingerprintOf(input)
             then Done(NoChange, id, false) else Fail(Conflict))
    ensures Step(later, Record(input), again) == later
  {
  }

  /** A request that created a transfer, sent again at any later time, gets that transfer
      back and writes nothing. */
  lemma ReplayReturnsTransfer(db: DB, input: RecordInput, env: Env, calls: seq<Call>, again: Env)
    requires Inv(db) && Admissible(db, Record(input), env)
    requires Exec(db, Record(input), env).reply.Done? && Exec(db, Record(input), env).reply.created
    requires AdmissibleRun(Step(db, Record(input), env), calls)
    ensures var later := Run(Step(db, Record(input), env), calls);
            && Exec(later, Record(input), again).reply == Done(NoChange, Exec(db, Record(input), env).reply.id, false)
            && Step(later, Record(input), again) == later
  {
    CreatedStays(db, input, env, calls);
    ReplayAt(Run(Step(db, Record(input), env), calls), Exec(db, Record(input), env).reply.id, input, again);
  }

  /** The same key with a different fingerprint is refused at any later time, and changes nothing. */
  lemma ReusedKeyRefused(db: DB, input: RecordInput, env: Env, calls: seq<Call>, other: RecordInput, again: Env)
    requires Inv(db) && Admissible(db, Record(input), env)
    requires Exec(db, Record(input), env).reply.Done? && Exec(db, Record(input), env).reply.created
    requires AdmissibleRun(Step(db, Record(input), env), calls)
    requires other.key == input.key && FingerprintOf(other) != FingerprintOf(input)
    ensures var later := Run(Step(db, Record(input), env), calls);
            && Exec(later, Record(other), again).reply == Fail(Conflict)
            && Step(later, Record(other), again) == later
  {
    CreatedStays(db, input, env, calls);
    ReplayAt(Run(Step(db, Record(input), env), calls), Exec(db, Record(input), env).reply.id, other, again);
  }

  /** A delivery of a known event under a new key: the same payload gets the linked transfer,
      a different one is refused; neither writes. */
  lemma EventReplay(db: DB, input: RecordInput, env: Env)
    requires Inv(db) && input.event.Some? && input.key !in db.byKey
    requires EventKey(input.provider, input.event.value) in db.events
    ensures var event := db.events[EventKey(input.provider, input.event.value)];
            && event.transfer.Some?
            && Step(db, Record(input), env) == db
            && Exec(db, Record(input), env).reply
               == (if event.fingerprint == NoFingerprint || event.fingerprint == FingerprintOf(input)
                   then Done(NoChange, event.transfer.value, false) else Fail(Conflict))
  {
    assert EventOk(db, EventKey(input.provider, input.event.value));
  }

  /** A review records a row and moves no money: no journal, no balance, no hold. */
  lemma ReviewMovesNothing(db: DB, review: ReviewInput, env: Env)
    ensures var next := Step(db, Op.Review(review), env);
            next.journals == db.journals && next.balances == db.balances && next.holds == db.holds
              && next.liens == db.liens
  {
  }
}
