/** Which call can cause which change to a row; everything else a legal call leaves as it was. */
module RowMoves {
  import opened Identities
  import opened WorkTable
  import opened WorkInvariants
  import opened CoordinatorInvariants

  predicate SettlesAs(db: Db, call: Call, i: nat) {
    call.op.OpSettle? && call.op.token.id == i && Live(db, call.op.token)
  }

  /** The causes of the changes the protocol proofs care about. */
  predicate Caused(db: Db, call: Call, i: nat, a: Row, b: Row) {
    && (b.state == Skipped && a.state != Skipped ==> call.op == OpSkip(i))
    && (b.sendAttempted && !a.sendAttempted ==>
          call.op.OpMarkSending? && call.op.token.id == i && Live(db, call.op.token))
    && (a.sendAttempted && !b.sendAttempted ==> call.op == OpRequeue(i) && Blocked(db, i))
    && (b.state == Claimed && a.state != Claimed ==>
          call.op.OpClaim? && call.op.id == i && Claimable(db.work, call.op.kind, call.now, i))
    && (b.state == Done && a.state != Done && i !in db.commands ==>
          || (SettlesAs(db, call, i) && call.op.outcome.Sent?)
          || (call.op.OpConfirm? && call.op.id == i && a.state == DeliveryUnknown))
  }

  /** Commands only move forward, and each move has one cause. */
  predicate CommandCaused(db: Db, call: Call, id: nat, a: Command, b: Command) {
    && (a.status.Finished? ==> b.status == a.status)
    && (b.status == Pending ==> a.status == Pending)
    && (b.status == Attempted && a.status != Attempted ==>
          call.op.OpStartCommand? && call.op.token.id == id && Startable(db, call.op.token))
  }

  predicate Appended(call: Call, r: Row) {
    && Untouched(r)
    && match r.source
       case MessageKey(_, _, _) =>
         && call.op.OpAccept?
         && r.lane == call.op.lane && r.source == call.op.source && r.agentEvent == call.op.event
       case EventKey(_, _) =>
         && call.op.OpInsertDelivery?
         && r.lane == call.op.lane && r.source == call.op.source && r.agentEvent == call.op.event
         && r.payload == call.op.payload
       case ReceiptKey(_) => true
  }

  ghost predicate Explained(db: Db, call: Call, after: Db) {
    && |db.work| <= |after.work|
    && (forall i :: 0 <= i < |db.work| ==> Caused(db, call, i, db.work[i], after.work[i]))
    && (forall i :: |db.work| <= i < |after.work| ==> Appended(call, after.work[i]))
    && (forall id :: id in db.commands ==>
          id in after.commands && CommandCaused(db, call, id, db.commands[id], after.commands[id]))
    && (forall id :: id in after.commands && id !in db.commands ==>
          id == |db.work| && after.commands[id].status == Pending)
    && (forall lane :: lane in db.lanes ==> lane in after.lanes && after.lanes[lane] == db.lanes[lane])
    && (forall lane :: CursorOf(after, lane) ==
          if call.op.OpSetCursor? && call.op.lane == lane then call.op.next else CursorOf(db, lane))
  }

  lemma PutExplained(db: Db, call: Call, i: nat, r: Row)
    requires i < |db.work| && Caused(db, call, i, db.work[i], r) && !call.op.OpSetCursor?
    ensures Explained(db, call, db.(work := db.work[i := r]))
  {
  }

  lemma InsertExplained(db: Db, call: Call, kind: WorkKind, source: SourceKey, lane: LaneKey, event: EventId,
                        payload: Payload)
    requires !source.ReceiptKey? && !call.op.OpSetCursor?
    requires Appended(call, NewRow(db.work, kind, source, lane, event, payload, call.now))
    ensures Explained(db, call, InsertWork(db, kind, source, lane, event, payload, call.now))
  {
    hide FindSource, MaxSequence;
  }

  lemma AcceptExplained(db: Db, call: Call)
    requires call.op.OpAccept? && call.op.source.MessageKey? && GoodCommands(db)
    ensures var o := call.op;
      Explained(db, call, AcceptIntake(db, o.lane, o.source, o.event, o.payload, o.command, call.now))
  {
    hide FindSource, MaxSequence;
    var o := call.op;
    InsertExplained(db, call, Intake, o.source, o.lane, o.event, o.payload);
  }

  lemma CompleteExplained(db: Db, call: Call, id: nat, result: CommandResult, agentControlled: bool)
    requires CoordinatorInv(db) && Unfinished(db, id) && id < |db.work| && !call.op.OpSetCursor?
    ensures Explained(db, call, CompleteCommand(db, id, result, agentControlled, call.now))
  {
    UnfinishedHasNoReceipt(db, id);
    var receipt := CompleteShape(db, id, result, agentControlled, call.now);
    assert GoodSend(db.work[id]);
    hide CompleteCommand, CoordinatorInv, FindSource, GoodSend, Explained;
    CompletedExplained(db, call, id, receipt, Command(Finished(result), None));
  }

  lemma CompletedExplained(db: Db, call: Call, id: nat, receipt: Row, entry: Command)
    requires id < |db.work| && id in db.commands && Unfinished(db, id) && entry.status.Finished?
    requires Untouched(receipt) && receipt.source.ReceiptKey? && !call.op.OpSetCursor?
    ensures Explained(db, call, db.(work := db.work[id := CompletedRow(db.work[id])] + [receipt],
                                    commands := db.commands[id := entry]))
  {
    var after := db.(work := db.work[id := CompletedRow(db.work[id])] + [receipt],
      commands := db.commands[id := entry]);
    forall i | 0 <= i < |db.work| ensures Caused(db, call, i, db.work[i], after.work[i]) {
    }
    hide Caused;
  }

  lemma SettleExplained(policy: Policy, db: Db, call: Call)
    requires CoordinatorInv(db) && call.op.OpSettle? && LegalSettle(db, call.op.token, call.op.outcome)
    ensures Explained(db, call, Settle(policy, db, call.op.token, call.op.outcome, call.now))
  {
    hide CompleteCommand, CoordinatorInv, SettledRow, Explained, Caused;
    var t, outcome := call.op.token, call.op.outcome;
    NothingExplained(db, call);
    if Live(db, t) {
      if RejectsPending(policy, db, t.id, outcome) {
        CompleteExplained(db, call, t.id, Rejected, false);
      } else {
        SettledIsCaused(policy, db, call);
        PutExplained(db, call, t.id, SettledRow(policy, db.work[t.id], outcome, call.now));
      }
    }
  }

  lemma SettledIsCaused(policy: Policy, db: Db, call: Call)
    requires call.op.OpSettle? && Live(db, call.op.token)
    ensures var id := call.op.token.id;
      Caused(db, call, id, db.work[id], SettledRow(policy, db.work[id], call.op.outcome, call.now))
  {
    hide Backoff;
  }

  lemma ReconcileExplained(db: Db, call: Call)
    requires CoordinatorInv(db) && call.op == OpReconcile
    ensures Explained(db, call, Reconcile(db, call.now))
  {
    var expired := ReconcileSpec(db, call.now);
    assert GoodRows(db.work, db.commands);
    hide CoordinatorInv, Reconcile;
    SweptExplained(db, expired, call);
  }

  lemma SweptExplained(db: Db, expired: Db, call: Call)
    requires GoodRows(db.work, db.commands) && Expires(db, expired) && call.op == OpReconcile
    ensures Explained(db, call, Sweep(expired, call.now))
  {
    var after := Sweep(expired, call.now);
    forall i | 0 <= i < |db.work| ensures Caused(db, call, i, db.work[i], after.work[i]) {
      assert GoodSend(db.work[i]);
    }
    forall i | |db.work| <= i < |after.work| ensures Appended(call, after.work[i]) {
    }
    hide Caused, Appended, SweptRow, CompletedRow, GoodSend;
  }

  lemma StartExplained(db: Db, call: Call)
    requires call.op.OpStartCommand?
    ensures Explained(db, call, StartCommand(db, call.op.token, call.now, call.op.timeout))
  {
  }

  lemma FinishExplained(db: Db, call: Call)
    requires CoordinatorInv(db) && call.op.OpFinishCommand?
    ensures Explained(db, call, FinishCommand(db, call.op.token, call.op.result, call.op.agentControlled, call.now))
  {
    hide CoordinatorInv, CompleteCommand, Explained;
    NothingExplained(db, call);
    if Finishable(db, call.op.token, call.op.result) {
      CompleteExplained(db, call, call.op.token.id, call.op.result, call.op.agentControlled);
    }
  }

  lemma RepairExplained(policy: Policy, db: Db, call: Call)
    requires call.op.OpSkip? || call.op.OpConfirm? || call.op.OpRequeue?
    ensures Explained(db, call, Apply(policy, db, call))
  {
    hide Explained;
    match call.op
    case OpSkip(id) =>
      if Blocked(db, id) {
        PutExplained(db, call, id, db.work[id].(state := Skipped));
      } else {
        NothingExplained(db, call);
      }
    case OpConfirm(id, ext) =>
      if id < |db.work| && db.work[id].state == DeliveryUnknown {
        PutExplained(db, call, id, db.work[id].(state := Done, externalId := ext));
      } else { NothingExplained(db, call); }
    case OpRequeue(id) =>
      if Blocked(db, id) {
        PutExplained(db, call, id, RequeuedRow(db.work[id], call.now));
      } else {
        NothingExplained(db, call);
      }
  }

  lemma NothingExplained(db: Db, call: Call)
    requires !call.op.OpSetCursor?
    ensures Explained(db, call, db)
  {
  }

  lemma ClaimExplained(policy: Policy, db: Db, call: Call)
    requires call.op.OpClaim?
    ensures Explained(db, call, Apply(policy, db, call))
  {
    assert Claimable(db.work, call.op.kind, call.now, call.op.id) ==>
        call.op.id < |db.work| && db.work[call.op.id].state == Ready;
    hide Claimable;
  }

  lemma MarkExplained(policy: Policy, db: Db, call: Call)
    requires call.op.OpMarkSending? || call.op.OpRelease?
    ensures Explained(db, call, Apply(policy, db, call))
  {
    hide Explained;
    var t := call.op.token;
    if Live(db, t) {
      PutExplained(db, call, t.id, Apply(policy, db, call).work[t.id]);
    } else {
      NothingExplained(db, call);
    }
  }

  /** Every change a legal call makes has the cause its kind of change always has. */
  lemma LegalCallExplained(policy: Policy, db: Db, call: Call)
    requires CoordinatorInv(db) && LegalCall(db, call)
    ensures Explained(db, call, Apply(policy, db, call))
  {
    assert GoodCommands(db);
    match call.op
    case OpAccept(_, _, _, _, _) => AcceptExplained(db, call);
    case OpInsertDelivery(lane, source, event, payload) =>
      InsertExplained(db, call, Delivery, source, lane, event, payload);
    case OpClaim(_, _, _) => ClaimExplained(policy, db, call);
    case OpMarkSending(_) => MarkExplained(policy, db, call);
    case OpRelease(_) => MarkExplained(policy, db, call);
    case OpSettle(_, _) => SettleExplained(policy, db, call);
    case OpStartCommand(_, _) => StartExplained(db, call);
    case OpFinishCommand(_, _, _) => FinishExplained(db, call);
    case OpReconcile => ReconcileExplained(db, call);
    case OpSkip(_) => RepairExplained(policy, db, call);
    case OpConfirm(_, _) => RepairExplained(policy, db, call);
    case OpRequeue(_) => RepairExplained(policy, db, call);
    case _ => DirectoryExplained(policy, db, call);
  }

  lemma DirectoryExplained(policy: Policy, db: Db, call: Call)
    requires call.op.OpResolveLane? || call.op.OpSetCursor? || call.op.OpPark? || call.op.OpUnpark?
    ensures Explained(db, call, Apply(policy, db, call))
  {
    var after := Apply(policy, db, call);
    assert after.work == db.work && after.commands == db.commands;
    hide Caused, CommandCaused, Appended;
    forall i | 0 <= i < |db.work| ensures Caused(db, call, i, db.work[i], after.work[i]) {
      RowUnchanged(db, call, i, db.work[i]);
    }
    forall id | id in db.commands ensures CommandCaused(db, call, id, db.commands[id], after.commands[id]) {
      CommandUnchanged(db, call, id, db.commands[id]);
    }
  }

  lemma RowUnchanged(db: Db, call: Call, i: nat, r: Row)
    ensures Caused(db, call, i, r, r)
  {
  }

  lemma CommandUnchanged(db: Db, call: Call, id: nat, c: Command)
    ensures CommandCaused(db, call, id, c, c)
  {
  }
}
