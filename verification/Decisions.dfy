/** Whatever a transaction decides to write is a change that keeps the invariant. */
module Decisions {
  import opened Types
  import opened Policy
  import opened Ledger
  import opened Transfers
  import opened Steps
  import opened Invariant
  import opened Preservation

  lemma JournalForMoves(input: RecordInput, id: TransferId, row: Transfer)
    requires input.amount > 0 && input.account != input.clearing && input.direction != Reversal
    requires row.account == input.account && row.amount == input.amount
    requires row.direction == input.direction || row.direction == Reversal
    ensures Moves(JournalFor(input, id), row)
  {
  }

  // A key that is not replayed is not taken.
  lemma KeyUnused(db: DB, key: Key)
    requires KeysOk(db) && !(key in db.byKey && db.byKey[key] in db.transfers)
    ensures key !in db.byKey
  {
    assert key in db.byKey ==> KeyOk(db, key);
  }

  lemma EventReserved(db: DB, input: RecordInput, id: TransferId)
    requires !EventTaken(db, input)
    ensures EventFree(db, Reserve(input, id), id)
  {
  }

  // A fresh record with its reversal link settled the way the caller will settle it.
  lemma RecordLockedOk(db: DB, input: RecordInput, env: Env, change: Change)
    requires Inv(db) && FreshIds(db, env)
    requires input.account in db.accounts && input.account in db.balances && input.clearing in db.accounts
    requires input.account != input.clearing && input.direction != Reversal
    requires input.key !in db.byKey
    requires RecordLocked(db, input, env).Done? && RecordLocked(db, input, env).change == change && change.Insert?
    requires CustomerInitiatedOutbound(input) && EffectiveStatus(input) == Pending ==>
      db.accounts[input.account].normal == Credit
    requires input.reversalOf.None?
    ensures InsertOk(db, change.id, change.row, change.entry, change.hold, change.event)
  {
    EventReserved(db, input, env.transfer);
    JournalForMoves(input, env.transfer, change.row);
  }

  lemma ReversalLockedOk(db: DB, input: RecordInput, env: Env, change: Change, now: nat)
    requires Inv(db) && FreshIds(db, env)
    requires input.account in db.accounts && input.account in db.balances && input.clearing in db.accounts
    requires input.account != input.clearing && input.direction != Reversal
    requires input.key !in db.byKey
    requires RecordLocked(db, input, env).Done? && RecordLocked(db, input, env).change == change && change.Insert?
    requires input.reversalOf.Some? && input.status == Succeeded && input.providerStatus == NoStatus
    requires Posts(db, input.reversalOf.value) && input.reversalOf.value !in db.reversals
    requires db.transfers[input.reversalOf.value].direction != Reversal
    requires db.transfers[input.reversalOf.value].account == input.account
    requires Mirror(JournalOf(db, input.reversalOf.value), JournalFor(input, env.transfer))
    ensures InsertOk(db, change.id, change.row.(direction := Reversal, updatedAt := now), change.entry, change.hold,
      change.event)
  {
    EventReserved(db, input, env.transfer);
    JournalForMoves(input, env.transfer, change.row.(direction := Reversal, updatedAt := now));
  }

  // A reply that writes nothing, inserts one transfer or advances one.
  predicate MovesTransfer(reply: Reply) {
    reply.Done? ==> reply.change == NoChange || reply.change.Insert? || reply.change.Advance?
  }

  lemma FreshKind(db: DB, input: RecordInput, env: Env)
    ensures MovesTransfer(RecordFresh(db, input, env).reply)
  {
  }

  lemma SettleKind(db: DB, id: TransferId, input: RecordInput, env: Env)
    requires id in db.transfers
    ensures MovesTransfer(Settle(db, id, input, env).reply)
  {
  }

  lemma CompleteKind(db: DB, id: TransferId, input: RecordInput, env: Env)
    ensures MovesTransfer(CompleteOutbound(db, id, input, env).reply)
  {
  }

  lemma RecordKind(db: DB, input: RecordInput, env: Env)
    ensures MovesTransfer(RecordTransfer(db, input, env).reply)
  {
    FreshKind(db, input, env);
    if env.pendingPick.Some? && PendingMatch(db, env.pendingPick.value, input) {
      SettleKind(db, env.pendingPick.value, input, env);
    }
  }

  lemma RequeryKind(db: DB, id: TransferId, input: RecordInput, env: Env)
    ensures MovesTransfer(RequeryTransfer(db, id, input, env).reply)
  {
    if id in db.transfers {
      var known := WithReference(db.transfers[id], input);
      CompleteKind(db, id, known, env);
      SettleKind(db, id, known, env);
    }
  }

  // Settlement once the accounts are locked.
  lemma SettleLockedOk(db: DB, id: TransferId, input: RecordInput, env: Env, change: Change)
    requires RowsOk(db) && HoldsOk(db) && FreshIds(db, env) && id in db.transfers && db.transfers[id].status == Pending
    requires input.direction == db.transfers[id].direction != Reversal && input.reversalOf.None?
    requires SameMovement(db.transfers[id], input)
    requires input.account in db.accounts && input.account in db.balances && input.clearing in db.accounts
    requires input.account != input.clearing
    requires SettleLocked(db, id, input, env).Done? && SettleLocked(db, id, input, env).change == change
    requires !EventTaken(db, input)
    ensures change.Advance? && change.id == id && AdvanceOk(db, id, change.row, change.entry, change.hold, change.event)
  {
    assert RowOk(db, id) && PendingHeld(db, id);
    if id in db.holds { assert HoldOk(db, id); }
    EventReserved(db, input, id);
    JournalForMoves(input, id, db.transfers[id]);
  }

  lemma SettleOk(db: DB, id: TransferId, input: RecordInput, env: Env)
    requires Inv(db) && FreshIds(db, env) && id in db.transfers && db.transfers[id].status == Pending
    requires input.direction != Reversal && input.reversalOf.None?
    requires Settle(db, id, input, env).reply.Done?
    ensures var change := Settle(db, id, input, env).reply.change;
            change == NoChange || (change.Advance? && change.id == id && ChangeOk(db, change))
  {
    if !EventTaken(db, input) {
      SettleLockedOk(db, id, input, env, Settle(db, id, input, env).reply.change);
    }
  }

  // Completion once the accounts are locked.
  lemma CompleteLockedOk(db: DB, id: TransferId, input: RecordInput, env: Env, change: Change)
    requires RowsOk(db) && HoldsOk(db) && FreshIds(db, env) && id in db.transfers && db.transfers[id].status == Pending
    requires input.direction == db.transfers[id].direction == Outbound && input.reversalOf.None?
    requires SameMovement(db.transfers[id], input)
    requires input.account in db.accounts && input.account in db.balances && input.clearing in db.accounts
    requires input.account != input.clearing
    requires CompleteLocked(db, id, input, env).Done? && CompleteLocked(db, id, input, env).change == change
    requires !EventTaken(db, input)
    ensures change.Advance? && change.id == id && AdvanceOk(db, id, change.row, change.entry, change.hold, change.event)
  {
    assert RowOk(db, id) && PendingHeld(db, id);
    if id in db.holds { assert HoldOk(db, id); }
    EventReserved(db, input, id);
    JournalForMoves(input, id, db.transfers[id]);
  }

  lemma CompleteOk(db: DB, id: TransferId, input: RecordInput, env: Env)
    requires Inv(db) && FreshIds(db, env)
    requires input.direction == Outbound && input.reversalOf.None?
    requires CompleteOutbound(db, id, input, env).reply.Done?
    ensures var change := CompleteOutbound(db, id, input, env).reply.change;
            change == NoChange || (change.Advance? && change.id == id && ChangeOk(db, change))
  {
    if db.transfers[id].status == Pending && !EventTaken(db, input) {
      assert RowOk(db, id);
      CompleteLockedOk(db, id, input, env, CompleteOutbound(db, id, input, env).reply.change);
    }
  }

  lemma RequeryOk(db: DB, id: TransferId, input: RecordInput, env: Env)
    requires Inv(db) && FreshIds(db, env)
    requires input.direction != Reversal && input.reversalOf.None?
    requires RequeryTransfer(db, id, input, env).reply.Done?
    ensures var change := RequeryTransfer(db, id, input, env).reply.change;
            change == NoChange || (change.Advance? && change.id == id && ChangeOk(db, change))
  {
    var row := db.transfers[id];
    var known := WithReference(row, input);
    if row.status == Pending {
      assert RowOk(db, id);
      match row.direction
      case Outbound => CompleteOk(db, id, known, env);
      case Inbound =>
        if CompletionStatuses(known).value.0 != Pending { SettleOk(db, id, known, env); }
      case Reversal =>
    }
  }

  lemma RecordOk(db: DB, input: RecordInput, env: Env)
    requires Inv(db) && FreshIds(db, env)
    requires input.direction != Reversal && input.reversalOf.None?
    requires CustomerInitiatedOutbound(input) && EffectiveStatus(input) == Pending && input.account in db.accounts
             ==> db.accounts[input.account].normal == Credit
    requires RecordTransfer(db, input, env).reply.Done?
    ensures ChangeOk(db, RecordTransfer(db, input, env).reply.change)
  {
    if !(input.key in db.byKey && db.byKey[input.key] in db.transfers) {
      KeyUnused(db, input.key);
      if ByReference(input) && env.pendingPick.Some? && PendingMatch(db, env.pendingPick.value, input) {
        SettleOkHere(db, env.pendingPick.value, input, env);
      }
      FreshOk(db, input, env);
    }
  }

  lemma SettleOkHere(db: DB, id: TransferId, input: RecordInput, env: Env)
    requires Inv(db) && FreshIds(db, env) && id in db.transfers && db.transfers[id].status == Pending
    requires input.direction != Reversal && input.reversalOf.None?
    ensures Settle(db, id, input, env).reply.Done? ==> ChangeOk(db, Settle(db, id, input, env).reply.change)
  {
    if Settle(db, id, input, env).reply.Done? { SettleOk(db, id, input, env); }
  }

  lemma FreshOk(db: DB, input: RecordInput, env: Env)
    requires Inv(db) && FreshIds(db, env) && input.key !in db.byKey
    requires input.direction != Reversal && input.reversalOf.None?
    requires CustomerInitiatedOutbound(input) && EffectiveStatus(input) == Pending && input.account in db.accounts
             ==> db.accounts[input.account].normal == Credit
    ensures RecordFresh(db, input, env).reply.Done? ==> ChangeOk(db, RecordFresh(db, input, env).reply.change)
  {
    var reply := RecordFresh(db, input, env).reply;
    if reply.Done? && reply.change.Insert? {
      RecordLockedOk(db, input, env, reply.change);
    }
  }

  // The other side of a posted transfer, and what reversing it posts.
  lemma CounterpartyIs(db: DB, id: TransferId)
    requires id in db.transfers && RowOk(db, id) && Posts(db, id) && JournalOk(db, db.transfers[id].journal.value)
    ensures var journal, account := JournalOf(db, id), db.transfers[id].account;
            Counterparty(db, db.transfers[id])
            == Some(if journal.postings[0].account == account
                    then journal.postings[1].account else journal.postings[0].account)
  {
    var ps := JournalOf(db, id).postings;
    assert ps[1..] == [ps[1]];
    assert ps[1..][1..] == [];
    assert Others(ps[1..], db.transfers[id].account)
        == if ps[1].account != db.transfers[id].account then [ps[1]] else [];
  }

  lemma ReversalMirrors(db: DB, o: TransferId, input: ReverseInput, id: TransferId)
    requires o in db.transfers && RowOk(db, o) && Posts(db, o) && JournalOk(db, db.transfers[o].journal.value)
    requires db.transfers[o].direction != Reversal && o == input.transfer
    ensures Counterparty(db, db.transfers[o]).Some?
    ensures var other := Counterparty(db, db.transfers[o]).value;
            && other != db.transfers[o].account && other in db.accounts
            && Mirror(JournalOf(db, o), JournalFor(ReversalInput(db.transfers[o], other, input), id))
  {
    CounterpartyIs(db, o);
  }

  // A transfer already there never reverses one that has no reversal on record.
  lemma NoStrayReversal(db: DB, id: TransferId, o: TransferId)
    requires ReversalsOk(db) && id in db.transfers && o !in db.reversals
    ensures db.transfers[id].reversalOf != Some(o)
  {
    assert ReversalListed(db, id);
  }

  // The only reply a reversal accepts from recordTransfer is a fresh insert.
  lemma ReversalRecords(db: DB, input: RecordInput, env: Env, o: TransferId)
    requires Inv(db) && input.reversalOf == Some(o) && o !in db.reversals
    requires RecordTransfer(db, input, env).reply.Done?
    ensures var reply := RecordTransfer(db, input, env).reply;
            var row := RowAfter(db, reply.change, reply.id);
            row.Some? && row.value.reversalOf == Some(o) ==>
              && input.key !in db.byKey
              && reply == RecordFresh(db, input, env).reply && reply.change.Insert?
  {
    var reply := RecordTransfer(db, input, env).reply;
    if reply.change == NoChange {
      if reply.id in db.transfers { NoStrayReversal(db, reply.id, o); }
    } else if reply.change.Advance? {
      assert RowOk(db, env.pendingPick.value);
    } else {
      KeyUnused(db, input.key);
    }
  }

  lemma ReverseOk(db: DB, input: ReverseInput, env: Env)
    requires Inv(db) && FreshIds(db, env)
    requires ReverseTransfer(db, input, env).reply.Done?
    ensures var reply := ReverseTransfer(db, input, env).reply;
            ChangeOk(db, reply.change)
            && (if reply.change == NoChange then
                  input.transfer in db.reversals && reply.id == db.reversals[input.transfer]
                else
                  reply.change.Insert? && reply.id == reply.change.id && reply.created
                  && reply.change.row.reversalOf == Some(input.transfer))
  {
    var o := input.transfer;
    if o in db.reversals {
      assert ReversalOk(db, o);
    } else {
      assert RowOk(db, o) && JournalOk(db, db.transfers[o].journal.value);
      ReversalMirrors(db, o, input, env.transfer);
      var record := ReversalInput(db.transfers[o], Counterparty(db, db.transfers[o]).value, input);
      ReversalRecords(db, record, env, o);
      var recorded := RecordTransfer(db, record, env).reply;
      ReversalLockedOk(db, record, env, recorded.change, env.now);
    }
  }

  lemma ReviewOk(db: DB, input: ReviewInput, env: Env)
    requires Inv(db) && FreshIds(db, env)
    requires input.direction == Inbound && (input.status == Failed || input.status == Pending)
    requires RecordReview(db, input, env).reply.Done?
    ensures ChangeOk(db, RecordReview(db, input, env).reply.change)
  {
    if !(input.key in db.byKey && db.byKey[input.key] in db.transfers) { KeyUnused(db, input.key); }
  }

  lemma CommittedOk(db: DB, op: Op, env: Env)
    requires Inv(db) && Admissible(db, op, env)
    ensures ChangeOk(db, Committed(db, op, env))
  {
    if Exec(db, op, env).reply.Done? {
      match op
      case Record(input) => RecordOk(db, input, env);
      case Complete(id, input) => CompleteOk(db, id, input, env);
      case Requery(id, input) => RequeryOk(db, id, input, env);
      case Reverse(input) => ReverseOk(db, input, env);
      case Review(input) => ReviewOk(db, input, env);
      case PlaceLien(_) =>
      case ReleaseLien(_) =>
      case SetStatus(_) =>
      case CreateAccount(_) =>
    }
  }

  /** Every admissible transaction keeps the invariant. */
  lemma StepKeepsInv(db: DB, op: Op, env: Env)
    requires Inv(db) && Admissible(db, op, env)
    ensures Inv(Step(db, op, env))
  {
    CommittedOk(db, op, env);
    ApplyKeepsInv(db, Committed(db, op, env));
  }
}
