/**
 What a caller of the store gets, field by field: for each transaction what it does to the row it is about
 and that it leaves everything else alone, in terms of the rows themselves.
 */
module StoreLaws {
  import opened Identities
  import opened WorkTable
  import opened WorkInvariants
  import opened RetryBudget
  import opened Reconciliation

  /** The transaction changed row id to r, and nothing else. */
  predicate OnlyRow(db: Db, after: Db, id: nat, r: Row) {
    id < |db.work| && after == db.(work := db.work[id := r])
  }

  // ---- Accepting work ---------------------------------------------------------------------------

  /** A fresh row, behind every row of its lane and kind. */
  predicate FreshRow(work: seq<Row>, r: Row, kind: WorkKind, source: SourceKey, lane: LaneKey, event: EventId,
                     payload: Payload, now: Time) {
    && r.kind == kind && r.source == source && r.lane == lane && r.agentEvent == event && r.payload == payload
    && r.state == Ready && r.availableAt == now && r.claimOwner.None? && r.claimUntil.None?
    && r.generation == 0 && r.attempts == 0 && !r.sendAttempted && r.externalId.None?
    && (forall i :: 0 <= i < |work| && work[i].lane == lane && work[i].kind == kind ==> work[i].sequence < r.sequence)
    && (r.sequence == 1 || HasNumber(work, lane, kind, r.sequence - 1))
  }

  predicate HasNumber(work: seq<Row>, lane: LaneKey, kind: WorkKind, number: int) {
    exists i :: 0 <= i < |work| && work[i].lane == lane && work[i].kind == kind && work[i].sequence == number
  }

  predicate Knows(work: seq<Row>, kind: WorkKind, source: SourceKey) {
    exists i :: 0 <= i < |work| && work[i].kind == kind && work[i].source == source
  }

  lemma KnowsIff(work: seq<Row>, kind: WorkKind, source: SourceKey)
    ensures FindSource(work, kind, source).Some? <==> Knows(work, kind, source)
  {
    if i :| 0 <= i < |work| && work[i].kind == kind && work[i].source == source {
      FindSourceComplete(work, kind, source, i);
    }
  }

  lemma {:induction false} MaxSequenceReached(work: seq<Row>, lane: LaneKey, kind: WorkKind)
    ensures forall i :: 0 <= i < |work| && work[i].lane == lane && work[i].kind == kind ==>
      work[i].sequence <= MaxSequence(work, lane, kind)
    ensures MaxSequence(work, lane, kind) == 0 || HasNumber(work, lane, kind, MaxSequence(work, lane, kind))
  {
    if work != [] {
      var init, last := work[..|work| - 1], |work| - 1;
      MaxSequenceReached(init, lane, kind);
      if MaxSequence(init, lane, kind) == MaxSequence(work, lane, kind) != 0 {
        var i :| 0 <= i < |init| && init[i].lane == lane && init[i].kind == kind &&
          init[i].sequence == MaxSequence(init, lane, kind);
        assert work[i] == init[i];
      } else if MaxSequence(work, lane, kind) != 0 {
        assert work[last].sequence == MaxSequence(work, lane, kind);
      }
    }
  }

  /** A source is queued once, in a lane that is known, as a fresh row behind its lane. */
  lemma InsertMeans(db: Db, kind: WorkKind, source: SourceKey, lane: LaneKey, event: EventId, payload: Payload,
                    now: Time)
    ensures var after := InsertWork(db, kind, source, lane, event, payload, now);
      && (lane !in db.lanes || Knows(db.work, kind, source) ==> after == db)
      && (lane in db.lanes && !Knows(db.work, kind, source) ==>
            && |after.work| == |db.work| + 1 && after == db.(work := db.work + [after.work[|db.work|]])
            && FreshRow(db.work, after.work[|db.work|], kind, source, lane, event, payload, now))
  {
    KnowsIff(db.work, kind, source);
    MaxSequenceReached(db.work, lane, kind);
    hide Knows, MaxSequence, FindSource;
  }

  /** A new message or command is one fresh row; a command also gets its journal entry, a replay nothing. */
  lemma AcceptMeans(db: Db, lane: LaneKey, source: SourceKey, event: EventId, payload: Payload, command: bool,
                    now: Time)
    ensures var after := AcceptIntake(db, lane, source, event, payload, command, now);
      && (lane !in db.lanes || Knows(db.work, Intake, source) ==> after == db)
      && (lane in db.lanes && !Knows(db.work, Intake, source) ==>
            && |after.work| == |db.work| + 1 && after.work[..|db.work|] == db.work
            && FreshRow(db.work, after.work[|db.work|], Intake, source, lane, event, payload, now)
            && after.commands == (if command then db.commands[|db.work| := Command(Pending, None)] else db.commands)
            && after.lanes == db.lanes && after.cursors == db.cursors)
  {
    KnowsIff(db.work, Intake, source);
    InsertMeans(db, Intake, source, lane, event, payload, now);
    hide Knows, FreshRow, MaxSequence, FindSource;
  }

  /** The first binding of a lane stands. */
  lemma ResolveMeans(db: Db, lane: LaneKey, info: Lane)
    ensures var after := ResolveLane(db, lane, info);
      && after == db.(lanes := after.lanes) && lane in after.lanes
      && (lane in db.lanes ==> after.lanes == db.lanes)
      && (lane !in db.lanes ==> after.lanes == db.lanes[lane := info])
  {
  }

  // ---- Claims -----------------------------------------------------------------------------------

  predicate IsAhead(a: Row, b: Row) {
    a.lane == b.lane && a.kind == b.kind && a.sequence < b.sequence
  }

  /** Ready, due, of the wanted kind, and everything earlier in its lane is done or skipped. */
  predicate Eligible(work: seq<Row>, kind: Option<WorkKind>, now: Time, id: nat) {
    && id < |work| && work[id].state == Ready && work[id].availableAt <= now
    && (kind.Some? ==> work[id].kind == kind.value)
    && forall j :: 0 <= j < |work| && IsAhead(work[j], work[id]) ==> work[j].state == Done || work[j].state == Skipped
  }

  /** A row may be claimed exactly if it is eligible and none that is eligible came first, by time and number. */
  lemma ClaimableMeans(work: seq<Row>, kind: Option<WorkKind>, now: Time, id: nat)
    ensures DueHead(work, kind, now, id) <==> Eligible(work, kind, now, id)
    ensures Claimable(work, kind, now, id) <==>
      && Eligible(work, kind, now, id)
      && forall j :: 0 <= j < |work| && Eligible(work, kind, now, j) ==>
           || work[id].availableAt < work[j].availableAt
           || (work[id].availableAt == work[j].availableAt && work[id].sequence <= work[j].sequence)
  {
    forall j | 0 <= j < |work| ensures DueHead(work, kind, now, j) <==> Eligible(work, kind, now, j) {
      EligibleIff(work, kind, now, j);
    }
    EligibleIff(work, kind, now, id);
    hide DueHead, Eligible;
  }

  lemma EligibleIff(work: seq<Row>, kind: Option<WorkKind>, now: Time, id: nat)
    ensures DueHead(work, kind, now, id) <==> Eligible(work, kind, now, id)
  {
  }

  /** A claim names its owner and its deadline, counts an attempt and raises the generation. */
  lemma ClaimMeans(policy: Policy, db: Db, id: nat, owner: nat, now: Time)
    requires id < |db.work|
    ensures OnlyRow(db, Claim(policy, db, id, owner, now), id,
                    db.work[id].(state := Claimed, claimOwner := Some(owner), claimUntil := Some(now + policy.ttl),
                                 generation := db.work[id].generation + 1, attempts := db.work[id].attempts + 1))
  {
  }

  /** The token's row is claimed at the token's generation. */
  predicate HoldsClaim(db: Db, t: Token) {
    t.id < |db.work| && db.work[t.id].state == Claimed && db.work[t.id].generation == t.generation
  }

  /** A mark or a release does nothing for a claim that was lost. */
  lemma MarkAndReleaseMean(db: Db, t: Token, now: Time)
    ensures !HoldsClaim(db, t) ==> MarkSending(db, t) == db && Release(db, t, now) == db
    ensures HoldsClaim(db, t) ==>
      var r := db.work[t.id];
      && OnlyRow(db, MarkSending(db, t), t.id, r.(sendAttempted := true))
      && OnlyRow(db, Release(db, t, now), t.id,
                 r.(state := Ready, availableAt := now, claimOwner := None, claimUntil := None,
                    attempts := if r.attempts > 0 then r.attempts - 1 else 0))
  {
  }

  // ---- Settling ---------------------------------------------------------------------------------

  /** The row's command was never started. */
  predicate Unstarted(db: Db, id: nat) {
    id in db.commands && db.commands[id].status == Pending
  }

  /** The row is settled to this state, with its claim gone and all the rest kept. */
  predicate SettledAs(db: Db, after: Db, id: nat, state: WorkState) {
    id < |db.work| && OnlyRow(db, after, id, db.work[id].(state := state, claimOwner := None, claimUntil := None))
  }

  /** Each outcome of a claim that is still held, except the failure of a command that never started. */
  lemma SettleMeans(policy: Policy, db: Db, t: Token, outcome: Outcome, now: Time)
    requires HoldsClaim(db, t)
    requires Unstarted(db, t.id) ==>
      !outcome.Fail? && (outcome.Retry? ==> db.work[t.id].attempts < policy.maxAttempts)
    ensures var r, after := db.work[t.id], Settle(policy, db, t, outcome, now);
      && (outcome.Sent? ==>
            OnlyRow(db, after, t.id, r.(state := Done, externalId := outcome.externalId, claimOwner := None,
                                        claimUntil := None)))
      && (outcome.Ambiguous? ==> SettledAs(db, after, t.id, DeliveryUnknown))
      && (outcome.Fail? ==> SettledAs(db, after, t.id, Failed))
      && (outcome.Retry? && r.attempts >= policy.maxAttempts ==> SettledAs(db, after, t.id, Failed))
      && (outcome.Retry? && r.attempts < policy.maxAttempts ==>
            OnlyRow(db, after, t.id,
                    r.(state := RetryWait, claimOwner := None, claimUntil := None,
                       availableAt := now + Delay(policy, r.attempts) + policy.jitter(r.attempts))))
  {
    hide Power2;
  }

  /** A command's completion: journal, row and one receipt, together. */
  predicate CompletedAs(db: Db, after: Db, id: nat, result: CommandResult, agentControlled: bool) {
    && id < |db.work| <= |after.work| && after.lanes == db.lanes && after.cursors == db.cursors
    && after.commands == db.commands[id := Command(Finished(result), None)]
    && after.work[..|db.work|] == db.work[id := Completed(db.work[id])]
    && HasReceipt(after.work, id)
    && |after.work| <= |db.work| + 1
    && (forall i :: |db.work| <= i < |after.work| ==>
          IsReceipt(after.work[i], db.work[id], id, result, agentControlled))
  }

  /** A lost claim settles nothing; giving up on a command that never started completes it as rejected. */
  lemma SettleOtherwise(policy: Policy, db: Db, t: Token, outcome: Outcome, now: Time)
    requires TableInv(db)
    ensures !HoldsClaim(db, t) ==> Settle(policy, db, t, outcome, now) == db
    ensures HoldsClaim(db, t) && Unstarted(db, t.id) &&
            (outcome.Fail? || (outcome.Retry? && db.work[t.id].attempts >= policy.maxAttempts)) ==>
      CompletedAs(db, Settle(policy, db, t, outcome, now), t.id, Rejected, false)
  {
    if HoldsClaim(db, t) {
      CompleteMeans(db, t.id, Rejected, false, now);
    }
    hide TableInv, CompleteCommand, SettledRow;
  }

  // ---- Commands ---------------------------------------------------------------------------------

  /** A command starts once, under a claim that is held, and its deadline becomes the claim's. */
  lemma StartMeans(db: Db, t: Token, now: Time, timeout: nat)
    ensures var after := StartCommand(db, t, now, timeout);
      if HoldsClaim(db, t) && Unstarted(db, t.id) then
        && after.work == db.work[t.id := db.work[t.id].(claimUntil := Some(now + timeout))]
        && after.commands == db.commands[t.id := Command(Attempted, Some(now + timeout))]
        && after.lanes == db.lanes && after.cursors == db.cursors
      else after == db
  {
  }

  /** What may still report: a started command under its claim, or one that never started being rejected. */
  predicate MayReport(db: Db, t: Token, result: CommandResult) {
    && t.id < |db.work| && db.work[t.id].generation == t.generation && t.id in db.commands
    && (|| (db.work[t.id].state == Claimed && db.commands[t.id].status == Attempted)
        || (result == Rejected && db.commands[t.id].status == Pending &&
            (db.work[t.id].state == Claimed || db.work[t.id].state == Failed)))
  }

  lemma FinishMeans(db: Db, t: Token, result: CommandResult, agentControlled: bool, now: Time)
    requires TableInv(db)
    ensures var after := FinishCommand(db, t, result, agentControlled, now);
      if MayReport(db, t, result) then CompletedAs(db, after, t.id, result, agentControlled) else after == db
  {
    if MayReport(db, t, result) {
      CompleteMeans(db, t.id, result, agentControlled, now);
    }
    hide TableInv, CompleteCommand;
  }

  // ---- Repairs and cursors ----------------------------------------------------------------------

  /** An operator's repairs touch only a row that is stuck. */
  lemma RepairsMean(db: Db, id: nat, ext: Option<nat>, now: Time)
    ensures var stuck := id < |db.work| && (db.work[id].state == Failed || db.work[id].state == DeliveryUnknown);
      if stuck then
        var r := db.work[id];
        && OnlyRow(db, Skip(db, id), id, r.(state := Skipped))
        && OnlyRow(db, Requeue(db, id, now), id,
                   r.(state := Ready, availableAt := now, sendAttempted := false, claimOwner := None,
                      claimUntil := None, generation := r.generation + 1))
      else Skip(db, id) == db && Requeue(db, id, now) == db
    ensures if id < |db.work| && db.work[id].state == DeliveryUnknown then
        OnlyRow(db, ConfirmDelivered(db, id, ext), id, db.work[id].(state := Done, externalId := ext))
      else ConfirmDelivered(db, id, ext) == db
  {
  }

  /** A cursor's position and its parked flag are independent of each other and of other lanes. */
  lemma CursorsMean(db: Db, lane: LaneKey, next: nat, other: LaneKey)
    ensures var moved, parked, freed := SetCursor(db, lane, next), ParkCursor(db, lane), UnparkCursor(db, lane);
      && CursorOf(moved, lane) == next && (Parked(moved, lane) <==> Parked(db, lane))
      && CursorOf(parked, lane) == CursorOf(db, lane) && Parked(parked, lane)
      && CursorOf(freed, lane) == CursorOf(db, lane) && !Parked(freed, lane)
      && moved == db.(cursors := moved.cursors) && parked == db.(cursors := parked.cursors)
      && freed == db.(cursors := freed.cursors)
    ensures other != lane ==>
      && CursorOf(SetCursor(db, lane, next), other) == CursorOf(db, other)
      && (Parked(SetCursor(db, lane, next), other) <==> Parked(db, other))
      && CursorOf(ParkCursor(db, lane), other) == CursorOf(db, other)
      && (Parked(ParkCursor(db, lane), other) <==> Parked(db, other))
      && CursorOf(UnparkCursor(db, lane), other) == CursorOf(db, other)
      && (Parked(UnparkCursor(db, lane), other) <==> Parked(db, other))
  {
  }
}
