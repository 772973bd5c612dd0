/**
 What the store keeps together with its callers: the discipline of send marks and of the command
 journal. The store alone would let a caller settle an attempted command or retry a marked send;
 LegalCall is the part of the store's interface that the coordinator's workers really use.
 */
module CoordinatorInvariants {
  import opened Identities
  import opened WorkTable
  import opened WorkInvariants

  // ---- The discipline ---------------------------------------------------------------------------

  predicate HasReceipt(work: seq<Row>, id: nat) {
    exists j :: 0 <= j < |work| && work[j].kind == Delivery && work[j].source == ReceiptKey(id)
  }

  /** A marked send is in flight, ended or ambiguous, never back in the queue. */
  predicate GoodSend(r: Row) {
    && (r.sendAttempted ==> r.kind == Delivery && r.state in {Claimed, Done, DeliveryUnknown, Skipped})
    && (r.state == DeliveryUnknown ==> r.kind == Delivery)
  }

  predicate GoodSource(r: Row, commands: map<nat, Command>) {
    match r.source
    case MessageKey(_, _, _) => r.kind == Intake
    case EventKey(_, lane) => r.kind == Delivery && lane == r.lane
    case ReceiptKey(id) => r.kind == Delivery && id in commands
  }

  predicate GoodCommand(work: seq<Row>, id: nat, c: Command)
    requires id < |work|
  {
    match c.status
    case Pending => work[id].state in {Ready, Claimed, RetryWait} && !HasReceipt(work, id)
    case Attempted =>
      work[id].state == Claimed && c.deadline.Some? && work[id].claimUntil == c.deadline && !HasReceipt(work, id)
    case Finished(_) => work[id].state == Done && HasReceipt(work, id)
  }

  predicate GoodRows(work: seq<Row>, commands: map<nat, Command>) {
    forall i :: 0 <= i < |work| ==> GoodSend(work[i]) && GoodSource(work[i], commands)
  }

  predicate GoodJournal(work: seq<Row>, commands: map<nat, Command>) {
    forall id :: id in commands ==> id < |work| && GoodCommand(work, id, commands[id])
  }

  predicate Disciplined(db: Db) {
    GoodRows(db.work, db.commands) && GoodJournal(db.work, db.commands)
  }

  predicate CoordinatorInv(db: Db) {
    TableInv(db) && Disciplined(db)
  }

  /** What a claim holder may report: sends are marked only on deliveries, commands only complete. */
  predicate LegalSettle(db: Db, t: Token, outcome: Outcome) {
    Live(db, t) ==>
      && !CommandIs(db, t.id, Attempted)
      && (outcome.Sent? ==> t.id !in db.commands)
      && (outcome.Ambiguous? ==> db.work[t.id].kind == Delivery)
      && (outcome.Retry? || outcome.Fail? ==> !db.work[t.id].sendAttempted)
  }

  predicate LegalCall(db: Db, call: Call) {
    match call.op
    case OpAccept(lane, source, _, _, _) => source.MessageKey?
    case OpInsertDelivery(lane, source, _, _) => source.EventKey? && source.lane == lane
    case OpMarkSending(t) => Live(db, t) ==> db.work[t.id].kind == Delivery
    case OpSettle(t, outcome) => LegalSettle(db, t, outcome)
    case OpRelease(t) => Live(db, t) ==> db.work[t.id].kind == Delivery && !db.work[t.id].sendAttempted
    case _ => true
  }

  // ---- Moving one row ---------------------------------------------------------------------------

  lemma ReceiptsSame(a: seq<Row>, b: seq<Row>, id: nat)
    requires |a| == |b| && forall i :: 0 <= i < |a| ==> SameIdentity(a[i], b[i])
    ensures HasReceipt(a, id) == HasReceipt(b, id)
  {
    if HasReceipt(a, id) {
      var j :| 0 <= j < |a| && a[j].kind == Delivery && a[j].source == ReceiptKey(id);
      assert b[j].source == ReceiptKey(id);
    }
    if HasReceipt(b, id) {
      var j :| 0 <= j < |b| && b[j].kind == Delivery && b[j].source == ReceiptKey(id);
      assert a[j].source == ReceiptKey(id);
    }
  }

  lemma ReceiptsAppend(work: seq<Row>, r: Row, id: nat)
    ensures HasReceipt(work + [r], id) == (HasReceipt(work, id) || (r.kind == Delivery && r.source == ReceiptKey(id)))
  {
    var after := work + [r];
    if HasReceipt(work, id) {
      var j :| 0 <= j < |work| && work[j].kind == Delivery && work[j].source == ReceiptKey(id);
      assert after[j] == work[j];
    }
    assert after[|work|] == r;
  }

  lemma PutDisciplined(db: Db, id: nat, r: Row)
    requires Disciplined(db) && id < |db.work| && SameIdentity(db.work[id], r) && GoodSend(r)
    requires id in db.commands ==>
      && db.commands[id].status == Pending
      && r.state in {Ready, Claimed, RetryWait}
    ensures Disciplined(db.(work := db.work[id := r]))
  {
    var work := db.work[id := r];
    forall c | c in db.commands ensures GoodCommand(work, c, db.commands[c]) {
      assert GoodCommand(db.work, c, db.commands[c]);
      ReceiptsSame(db.work, work, c);
      hide HasReceipt;
    }
    hide HasReceipt, GoodCommand;
  }

  lemma AppendDisciplined(db: Db, r: Row)
    requires Disciplined(db) && Untouched(r) && GoodSource(r, db.commands) && !r.source.ReceiptKey?
    ensures Disciplined(db.(work := db.work + [r]))
  {
    var work := db.work + [r];
    forall c | c in db.commands ensures c < |work| && GoodCommand(work, c, db.commands[c]) {
      assert GoodCommand(db.work, c, db.commands[c]);
      ReceiptsAppend(db.work, r, c);
      hide HasReceipt;
    }
    hide HasReceipt, GoodCommand;
  }

  // ---- Completing a command ---------------------------------------------------------------------

  predicate Unfinished(db: Db, id: nat) {
    id in db.commands && !db.commands[id].status.Finished?
  }

  lemma UnfinishedHasNoReceipt(db: Db, id: nat)
    requires CoordinatorInv(db) && Unfinished(db, id)
    ensures id < |db.work| && db.work[id].lane in db.lanes && db.work[id].kind == Intake
    ensures FindSource(db.work, Delivery, ReceiptKey(id)).None?
  {
    assert GoodCommand(db.work, id, db.commands[id]);
    assert GoodCommands(db);
    hide GoodSource, GoodSend, Numbered, UniqueSources, HeadOfLine;
  }

  /** A completed command's row is done and its one receipt is queued. */
  lemma CompleteShape(db: Db, id: nat, result: CommandResult, agentControlled: bool, now: Time) returns (receipt: Row)
    requires id < |db.work| && db.work[id].lane in db.lanes
    requires FindSource(db.work, Delivery, ReceiptKey(id)).None?
    ensures Untouched(receipt)
    ensures receipt.kind == Delivery && receipt.source == ReceiptKey(id) && receipt.lane == db.work[id].lane
    ensures CompleteCommand(db, id, result, agentControlled, now) ==
      db.(work := db.work[id := CompletedRow(db.work[id])] + [receipt],
          commands := db.commands[id := Command(Finished(result), None)])
  {
    hide FindSource, MaxSequence, CompletedRow;
    receipt := NewRow(db.work, Delivery, ReceiptKey(id), db.work[id].lane, CommandReceipt(db.work[id].source),
                      Receipt(result, agentControlled), now);
    UpdateBeforeAppend(db.work, receipt, id, CompletedRow(db.work[id]));
  }

  lemma UpdateBeforeAppend(work: seq<Row>, last: Row, id: nat, r: Row)
    requires id < |work|
    ensures (work + [last])[id := r] == work[id := r] + [last]
  {
  }

  lemma CompleteJournal(db: Db, id: nat, receipt: Row, entry: Command)
    requires GoodJournal(db.work, db.commands) && id in db.commands && entry.status.Finished?
    requires receipt.kind == Delivery && receipt.source == ReceiptKey(id)
    ensures id < |db.work|
    ensures GoodJournal(db.work[id := CompletedRow(db.work[id])] + [receipt], db.commands[id := entry])
  {
    var done := db.work[id := CompletedRow(db.work[id])];
    var work := done + [receipt];
    var commands := db.commands[id := entry];
    forall c | c in commands ensures c < |work| && GoodCommand(work, c, commands[c]) {
      ReceiptsSame(db.work, done, c);
      ReceiptsAppend(done, receipt, c);
      assert GoodCommand(db.work, c, db.commands[c]);
      hide HasReceipt;
    }
  }

  lemma CompleteRows(db: Db, id: nat, receipt: Row, entry: Command)
    requires GoodRows(db.work, db.commands) && id < |db.work| && id in db.commands && db.work[id].kind == Intake
    requires Untouched(receipt) && receipt.kind == Delivery && receipt.source == ReceiptKey(id)
    ensures GoodRows(db.work[id := CompletedRow(db.work[id])] + [receipt], db.commands[id := entry])
  {
    var commands := db.commands[id := entry];
    var work := db.work[id := CompletedRow(db.work[id])] + [receipt];
    forall i | 0 <= i < |work| ensures GoodSend(work[i]) && GoodSource(work[i], commands) {
      if i < |db.work| {
        assert GoodSend(db.work[i]) && GoodSource(db.work[i], db.commands);
      }
    }
  }

  lemma CompleteDisciplined(db: Db, id: nat, result: CommandResult, agentControlled: bool, now: Time)
    requires CoordinatorInv(db) && Unfinished(db, id)
    ensures id < |db.work| && Disciplined(CompleteCommand(db, id, result, agentControlled, now))
  {
    UnfinishedHasNoReceipt(db, id);
    var receipt := CompleteShape(db, id, result, agentControlled, now);
    CompleteJournal(db, id, receipt, Command(Finished(result), None));
    CompleteRows(db, id, receipt, Command(Finished(result), None));
    hide TableInv, CompleteCommand, FindSource, GoodRows, GoodJournal, CompletedRow;
  }

  lemma CompleteKeepsAll(db: Db, id: nat, result: CommandResult, agentControlled: bool, now: Time)
    requires CoordinatorInv(db) && Unfinished(db, id) && id < |db.work| && db.work[id].generation > 0
    ensures CoordinatorInv(CompleteCommand(db, id, result, agentControlled, now))
  {
    CompleteDisciplined(db, id, result, agentControlled, now);
    CompleteKeeps(db, id, result, agentControlled, now);
  }

  // ---- Reconcile --------------------------------------------------------------------------------

  /** Under the discipline no command is ever stranded, so the repair pass finds nothing. */
  lemma {:induction false} NothingStranded(db: Db, n: nat, now: Time)
    requires Disciplined(db) && n <= |db.work|
    ensures RejectStranded(db, n, now) == db
  {
    if n > 0 {
      NothingStranded(db, n - 1, now);
      if n - 1 in db.commands {
        assert GoodCommand(db.work, n - 1, db.commands[n - 1]);
      }
    }
  }

  /** Rows are untouched or, for expired commands, completed. */
  predicate Expires(a: Db, b: Db) {
    && |a.work| <= |b.work|
    && b.commands.Keys == a.commands.Keys
    && (forall i :: 0 <= i < |a.work| ==>
          b.work[i] == a.work[i] || (CommandIs(a, i, Attempted) && b.work[i] == CompletedRow(a.work[i])))
    && (forall i :: |a.work| <= i < |b.work| ==> Untouched(b.work[i]) && b.work[i].source.ReceiptKey?)
    && (forall c :: c in a.commands ==>
          (b.commands[c] == a.commands[c] ||
           (a.commands[c].status == Attempted && b.commands[c] == Command(Finished(Unknown), None))))
    && b.lanes == a.lanes
    && b.cursors == a.cursors
  }

  /** The commands of the first n rows are settled, the others are as they were. */
  predicate ExpiredUpTo(db: Db, after: Db, n: nat, now: Time)
    requires |db.work| <= |after.work|
  {
    && (forall id :: 0 <= id < n ==> !ExpiredCommand(after, id, now))
    && (forall id :: n <= id < |db.work| ==> after.work[id] == db.work[id])
    && (forall id :: n <= id && id in db.commands && id in after.commands ==> after.commands[id] == db.commands[id])
  }

  lemma ExpireStep(db: Db, before: Db, n: nat, receipt: Row, now: Time)
    requires Expires(db, before) && n < |db.work| && ExpiredUpTo(db, before, n, now)
    requires ExpiredCommand(before, n, now) && Untouched(receipt) && receipt.source.ReceiptKey?
    ensures var after := before.(work := before.work[n := CompletedRow(before.work[n])] + [receipt],
                                 commands := before.commands[n := Command(Finished(Unknown), None)]);
            Expires(db, after) && ExpiredUpTo(db, after, n + 1, now)
  {
    hide CompletedRow, Untouched;
    assert before.work[n] == db.work[n] && before.commands[n] == db.commands[n];
    var after := before.(work := before.work[n := CompletedRow(before.work[n])] + [receipt],
                         commands := before.commands[n := Command(Finished(Unknown), None)]);
    forall id | 0 <= id < n + 1 ensures !ExpiredCommand(after, id, now) {
      assert id < n ==> !ExpiredCommand(before, id, now);
    }
    forall id | n + 1 <= id < |db.work| ensures after.work[id] == db.work[id] {
      assert after.work[id] == before.work[id];
    }
  }

  lemma ExpireOne(before: Db, n: nat, now: Time) returns (receipt: Row)
    requires CoordinatorInv(before) && ExpiredCommand(before, n, now)
    ensures CoordinatorInv(CompleteCommand(before, n, Unknown, false, now))
    ensures Untouched(receipt) && receipt.source.ReceiptKey?
    ensures CompleteCommand(before, n, Unknown, false, now) ==
      before.(work := before.work[n := CompletedRow(before.work[n])] + [receipt],
              commands := before.commands[n := Command(Finished(Unknown), None)])
  {
    CommandWasClaimed(before, n, now);
    UnfinishedHasNoReceipt(before, n);
    CompleteKeepsAll(before, n, Unknown, false, now);
    receipt := CompleteShape(before, n, Unknown, false, now);
    hide CoordinatorInv, CompleteCommand, CompletedRow, FindSource;
  }

  lemma {:induction false} ExpireCommandsSpec(db: Db, n: nat, now: Time)
    requires CoordinatorInv(db) && n <= |db.work|
    ensures var after := ExpireCommands(db, n, now);
      CoordinatorInv(after) && Expires(db, after) && ExpiredUpTo(db, after, n, now)
  {
    hide CoordinatorInv, CompleteCommand, CompletedRow;
    if n > 0 {
      hide Expires, ExpiredUpTo;
      ExpireCommandsSpec(db, n - 1, now);
      var before := ExpireCommands(db, n - 1, now);
      if ExpiredCommand(before, n - 1, now) {
        var receipt := ExpireOne(before, n - 1, now);
        ExpireStep(db, before, n - 1, receipt, now);
      } else {
        NotExpired(db, before, n - 1, now);
      }
    }
  }

  lemma NotExpired(db: Db, before: Db, n: nat, now: Time)
    requires Expires(db, before) && n < |db.work| && ExpiredUpTo(db, before, n, now)
    requires !ExpiredCommand(before, n, now)
    ensures ExpiredUpTo(db, before, n + 1, now)
  {
  }

  lemma SweepJournal(db: Db, now: Time)
    requires GoodJournal(db.work, db.commands)
    requires forall i :: 0 <= i < |db.work| ==> GoodRow(db.work[i])
    requires forall id :: id in db.commands && id < |db.work| ==> db.work[id].kind == Intake
    requires forall id :: 0 <= id < |db.work| ==> !ExpiredCommand(db, id, now)
    ensures GoodJournal(Sweep(db, now).work, db.commands)
  {
    hide GoodCommand, GoodRow, ExpiredCommand, Sweep;
    forall c | c in db.commands ensures c < |Sweep(db, now).work| &&
      GoodCommand(Sweep(db, now).work, c, db.commands[c]) {
      SweptCommand(db, now, c);
    }
  }

  lemma SweptCommand(db: Db, now: Time, c: nat)
    requires c in db.commands && c < |db.work| && GoodCommand(db.work, c, db.commands[c]) && GoodRow(db.work[c])
    requires db.work[c].kind == Intake && !ExpiredCommand(db, c, now)
    ensures c < |Sweep(db, now).work| && GoodCommand(Sweep(db, now).work, c, db.commands[c])
  {
    hide HasReceipt;
    var after := Sweep(db, now);
    assert forall i :: 0 <= i < |db.work| ==> SameIdentity(db.work[i], after.work[i]) by { hide GoodCommand, GoodRow; }
    ReceiptsSame(db.work, after.work, c);
    assert after.work[c] == SweptRow(db.work[c], now);
  }

  lemma SweepRows(db: Db, now: Time)
    requires GoodRows(db.work, db.commands)
    ensures GoodRows(Sweep(db, now).work, db.commands)
  {
    var after := Sweep(db, now);
    forall i | 0 <= i < |db.work| ensures GoodSend(after.work[i]) && GoodSource(after.work[i], db.commands) {
      assert GoodSend(db.work[i]) && GoodSource(db.work[i], db.commands);
    }
  }

  lemma SweepDisciplined(db: Db, now: Time)
    requires CoordinatorInv(db)
    requires forall id :: 0 <= id < |db.work| ==> !ExpiredCommand(db, id, now)
    ensures Disciplined(Sweep(db, now))
  {
    SweepRows(db, now);
    assert GoodCommands(db);
    SweepJournal(db, now);
    hide TableInv, GoodRows, GoodJournal;
  }

  lemma ReconcileSpec(db: Db, now: Time) returns (expired: Db)
    requires CoordinatorInv(db)
    ensures CoordinatorInv(expired) && Expires(db, expired) && Reconcile(db, now) == Sweep(expired, now)
    ensures forall id :: 0 <= id < |expired.work| ==> !ExpiredCommand(expired, id, now)
  {
    NothingStranded(db, |db.work|, now);
    ExpireCommandsSpec(db, |db.work|, now);
    expired := ExpireCommands(db, |db.work|, now);
    assert GoodCommands(db);
    hide CoordinatorInv, ExpireCommands;
  }

  lemma ReconcileKeepsAll(db: Db, now: Time)
    requires CoordinatorInv(db)
    ensures CoordinatorInv(Reconcile(db, now))
  {
    var expired := ReconcileSpec(db, now);
    SweepDisciplined(expired, now);
    ReconcileKeeps(db, now);
  }

  // ---- Every legal call -------------------------------------------------------------------------

  lemma SettleDisciplined(policy: Policy, db: Db, t: Token, outcome: Outcome, now: Time)
    requires CoordinatorInv(db) && LegalSettle(db, t, outcome)
    ensures Disciplined(Settle(policy, db, t, outcome, now))
  {
    hide Disciplined, TableInv, CompleteCommand, Backoff;
    if Live(db, t) {
      RowIsDisciplined(db, t.id);
      if RejectsPending(policy, db, t.id, outcome) {
        CompleteDisciplined(db, t.id, Rejected, false, now);
      } else {
        PutDisciplined(db, t.id, SettledRow(policy, db.work[t.id], outcome, now));
      }
    }
  }

  lemma RowIsDisciplined(db: Db, id: nat)
    requires CoordinatorInv(db) && id < |db.work|
    ensures GoodSend(db.work[id])
    ensures id in db.commands ==> GoodCommand(db.work, id, db.commands[id]) && db.work[id].kind == Intake
  {
    hide Numbered, UniqueSources, HeadOfLine, GoodRow, GoodSend, GoodCommand;
  }

  lemma StartDisciplined(db: Db, t: Token, now: Time, timeout: nat)
    requires CoordinatorInv(db)
    ensures Disciplined(StartCommand(db, t, now, timeout))
  {
    if Startable(db, t) {
      assert GoodCommands(db);
      hide TableInv;
      var deadline := Some(now + timeout);
      var r := db.work[t.id].(claimUntil := deadline);
      var work := db.work[t.id := r];
      StartJournal(db, t.id, r, Command(Attempted, deadline));
      forall i | 0 <= i < |work| ensures GoodSend(work[i]) &&
        GoodSource(work[i], db.commands[t.id := Command(Attempted, deadline)]) {
        assert GoodSend(db.work[i]) && GoodSource(db.work[i], db.commands);
      }
      hide GoodJournal, GoodSend, GoodSource;
    }
  }

  lemma StartJournal(db: Db, id: nat, r: Row, entry: Command)
    requires GoodJournal(db.work, db.commands) && id in db.commands && id < |db.work|
    requires db.commands[id].status == Pending && SameIdentity(db.work[id], r) && r.state == Claimed
    requires entry.status == Attempted && entry.deadline.Some? && r.claimUntil == entry.deadline
    ensures GoodJournal(db.work[id := r], db.commands[id := entry])
  {
    var work := db.work[id := r];
    var commands := db.commands[id := entry];
    forall c | c in commands ensures c < |work| && GoodCommand(work, c, commands[c]) {
      assert GoodCommand(db.work, c, db.commands[c]);
      ReceiptsSame(db.work, work, c);
      hide HasReceipt;
    }
  }

  lemma FinishDisciplined(db: Db, t: Token, result: CommandResult, agentControlled: bool, now: Time)
    requires CoordinatorInv(db)
    ensures Disciplined(FinishCommand(db, t, result, agentControlled, now))
  {
    if Finishable(db, t, result) {
      CompleteDisciplined(db, t.id, result, agentControlled, now);
    }
    hide Disciplined, TableInv, CompleteCommand;
  }

  lemma AcceptDisciplined(db: Db, lane: LaneKey, source: SourceKey, event: EventId, payload: Payload,
                          command: bool, now: Time)
    requires CoordinatorInv(db) && source.MessageKey?
    ensures Disciplined(AcceptIntake(db, lane, source, event, payload, command, now))
  {
    if lane in db.lanes && FindSource(db.work, Intake, source).None? {
      var r := NewRow(db.work, Intake, source, lane, event, payload, now);
      AppendDisciplined(db, r);
      if command {
        NewJournalDisciplined(db, r);
      }
    }
    hide Disciplined, TableInv, FindSource, MaxSequence;
  }

  lemma NewJournalDisciplined(db: Db, r: Row)
    requires CoordinatorInv(db) && Disciplined(db.(work := db.work + [r]))
    requires Untouched(r) && r.kind == Intake
    ensures Disciplined(db.(work := db.work + [r], commands := db.commands[|db.work| := Command(Pending, None)]))
  {
    var id := |db.work|;
    var work := db.work + [r];
    var commands := db.commands[id := Command(Pending, None)];
    forall j | 0 <= j < |work| ensures work[j].source != ReceiptKey(id) {
      assert GoodSource(work[j], db.commands) && GoodCommands(db);
    }
    hide HasReceipt, TableInv;
    forall c | c in commands ensures c < |work| && GoodCommand(work, c, commands[c]) {
      if c != id {
        assert GoodCommand(work, c, db.commands[c]);
      }
    }
    forall i | 0 <= i < |work| ensures GoodSource(work[i], commands) {
      assert GoodSource(work[i], db.commands);
    }
    hide GoodCommand, GoodSource;
  }

  lemma InsertDisciplined(db: Db, source: SourceKey, lane: LaneKey, event: EventId, payload: Payload, now: Time)
    requires CoordinatorInv(db) && source.EventKey? && source.lane == lane
    ensures Disciplined(InsertWork(db, Delivery, source, lane, event, payload, now))
  {
    if lane in db.lanes && FindSource(db.work, Delivery, source).None? {
      AppendDisciplined(db, NewRow(db.work, Delivery, source, lane, event, payload, now));
    }
    hide Disciplined, TableInv, FindSource, MaxSequence;
  }

  lemma ClaimDisciplined(policy: Policy, db: Db, id: nat, owner: nat, now: Time)
    requires CoordinatorInv(db) && id < |db.work| && db.work[id].state == Ready
    ensures Disciplined(Claim(policy, db, id, owner, now))
  {
    assert GoodSend(db.work[id]);
    if id in db.commands { assert GoodCommand(db.work, id, db.commands[id]); }
    PutDisciplined(db, id, ClaimedRow(policy, db.work[id], owner, now));
  }

  lemma MarkDisciplined(db: Db, t: Token)
    requires CoordinatorInv(db) && (Live(db, t) ==> db.work[t.id].kind == Delivery)
    ensures Disciplined(MarkSending(db, t))
  {
    if Live(db, t) {
      assert GoodCommands(db);
      PutDisciplined(db, t.id, db.work[t.id].(sendAttempted := true));
    }
  }

  lemma ReleaseDisciplined(db: Db, t: Token, now: Time)
    requires CoordinatorInv(db) && (Live(db, t) ==> db.work[t.id].kind == Delivery && !db.work[t.id].sendAttempted)
    ensures Disciplined(Release(db, t, now))
  {
    if Live(db, t) {
      assert GoodCommands(db);
      PutDisciplined(db, t.id, Release(db, t, now).work[t.id]);
    }
  }

  lemma RepairDisciplined(db: Db, id: nat, ext: Option<nat>, now: Time)
    requires CoordinatorInv(db)
    ensures Disciplined(Skip(db, id))
    ensures Disciplined(ConfirmDelivered(db, id, ext))
    ensures Disciplined(Requeue(db, id, now))
  {
    if Blocked(db, id) {
      assert GoodSend(db.work[id]);
      assert id in db.commands ==> GoodCommand(db.work, id, db.commands[id]);
      PutDisciplined(db, id, db.work[id].(state := Skipped));
      PutDisciplined(db, id, RequeuedRow(db.work[id], now));
      if db.work[id].state == DeliveryUnknown {
        PutDisciplined(db, id, db.work[id].(state := Done, externalId := ext));
      }
    }
    hide Disciplined, TableInv;
  }

  lemma LegalCallDisciplined(policy: Policy, db: Db, call: Call)
    requires CoordinatorInv(db) && LegalCall(db, call)
    ensures Disciplined(Apply(policy, db, call))
  {
    hide TableInv, Disciplined, Settle, Release, StartCommand, FinishCommand, AcceptIntake, InsertWork, Claim,
         MarkSending, Reconcile, Skip, ConfirmDelivered, Requeue, LegalSettle;
    var now := call.now;
    match call.op
    case OpAccept(lane, source, event, payload, command) =>
      AcceptDisciplined(db, lane, source, event, payload, command, now);
    case OpInsertDelivery(lane, source, event, payload) =>
      InsertDisciplined(db, source, lane, event, payload, now);
    case OpClaim(kind, id, owner) =>
      if Claimable(db.work, kind, now, id) { ClaimDisciplined(policy, db, id, owner, now); }
    case OpMarkSending(t) => MarkDisciplined(db, t);
    case OpSettle(t, outcome) => SettleDisciplined(policy, db, t, outcome, now);
    case OpRelease(t) => ReleaseDisciplined(db, t, now);
    case OpStartCommand(t, timeout) => StartDisciplined(db, t, now, timeout);
    case OpFinishCommand(t, result, agentControlled) => FinishDisciplined(db, t, result, agentControlled, now);
    case OpReconcile => ReconcileKeepsAll(db, now);
    case OpSkip(id) => RepairDisciplined(db, id, None, now);
    case OpConfirm(id, ext) => RepairDisciplined(db, id, ext, now);
    case OpRequeue(id) => RepairDisciplined(db, id, None, now);
    case _ => DirectoryDisciplined(policy, db, call);
  }

  lemma DirectoryDisciplined(policy: Policy, db: Db, call: Call)
    requires Disciplined(db)
    requires call.op.OpResolveLane? || call.op.OpSetCursor? || call.op.OpPark? || call.op.OpUnpark?
    ensures Disciplined(Apply(policy, db, call))
  {
    hide GoodCommand, GoodSource, GoodSend;
  }

  lemma LegalCallKeeps(policy: Policy, db: Db, call: Call)
    requires CoordinatorInv(db) && LegalCall(db, call)
    ensures CoordinatorInv(Apply(policy, db, call)) && Evolves(db, Apply(policy, db, call))
  {
    ApplyKeeps(policy, db, call);
    LegalCallDisciplined(policy, db, call);
    hide TableInv, Disciplined, Evolves, Apply;
  }
}
