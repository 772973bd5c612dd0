/**
 The store as the program writes it: an object whose tables its transactions update in place. Every
 method is proved to be the transaction of the same name in WorkTable, and to keep TableInv.
 */
module MessageWorkStores {
  import opened Identities
  import opened WorkTable
  import opened WorkInvariants
  import Reconciliation

  class MessageWorkStore {
    const policy: Policy
    var lanes: map<LaneKey, Lane>
    var work: seq<Row>
    var commands: map<nat, Command>
    var cursors: map<LaneKey, Cursor>

    function State(): Db
      reads this
    {
      Db(lanes, work, commands, cursors)
    }

    predicate Valid()
      reads this
    {
      TableInv(State())
    }

    constructor (policy: Policy)
      ensures Valid() && State() == EMPTY && this.policy == policy
    {
      this.policy := policy;
      lanes, work, commands, cursors := map[], [], map[], map[];
    }

    // ---- Lanes and accepting work ---------------------------------------------------------------

    /** Two first messages of a lane converge on the binding the first one made. */
    method ResolveLane(lane: LaneKey, info: Lane) returns (created: bool)
      requires Valid()
      modifies this
      ensures Valid() && State() == WorkTable.ResolveLane(old(State()), lane, info)
      ensures lane in lanes && created == (lane !in old(lanes))
    {
      hide TableInv, Evolves;
      ApplyKeeps(policy, State(), Call(OpResolveLane(lane, info), 0));
      created := lane !in lanes;
      if created {
        lanes := lanes[lane := info];
      }
    }

    method Lookup(kind: WorkKind, source: SourceKey) returns (found: Option<nat>)
      ensures found == FindSource(work, kind, source)
    {
      var i := |work|;
      assert work[..i] == work;
      while i > 0
        invariant 0 <= i <= |work|
        invariant FindSource(work, kind, source) == FindSource(work[..i], kind, source)
      {
        i := i - 1;
        if work[i].kind == kind && work[i].source == source {
          return Some(i);
        }
        assert work[..i + 1][..i] == work[..i];
      }
      return None;
    }

    method NextSequence(lane: LaneKey, kind: WorkKind) returns (next: nat)
      ensures next == MaxSequence(work, lane, kind) + 1
    {
      var max := 0;
      for i := 0 to |work|
        invariant max == MaxSequence(work[..i], lane, kind)
      {
        if work[i].lane == lane && work[i].kind == kind && max < work[i].sequence {
          max := work[i].sequence;
        }
        assert work[..i + 1][..i] == work[..i];
      }
      assert work[..|work|] == work;
      next := max + 1;
    }

    /** None is the unknown-lane error; otherwise the id of the new or existing row. */
    method InsertWork(kind: WorkKind, source: SourceKey, lane: LaneKey, event: EventId, payload: Payload, now: Time)
      returns (id: Option<nat>)
      requires Valid()
      modifies this`work
      ensures Valid() && State() == WorkTable.InsertWork(old(State()), kind, source, lane, event, payload, now)
      ensures id.None? <==> lane !in lanes
      ensures id.Some? ==> id.value < |work| && work[id.value].kind == kind && work[id.value].source == source
      ensures id.Some? && id.value >= |old(work)| ==> |work| == |old(work)| + 1 && Untouched(work[id.value])
    {
      hide TableInv, Evolves;
      InsertKeeps(State(), kind, source, lane, event, payload, now);
      if lane !in lanes {
        return None;
      }
      var existing := Lookup(kind, source);
      if existing.Some? {
        return existing;
      }
      var sequence := NextSequence(lane, kind);
      work := work + [Row(kind, source, lane, sequence, event, Ready, now, None, None, 0, 0, false, None, payload)];
      return Some(|work| - 1);
    }

    method AcceptIntake(lane: LaneKey, source: SourceKey, event: EventId, payload: Payload, command: bool, now: Time)
      returns (id: Option<nat>)
      requires Valid()
      modifies this`work, this`commands
      ensures Valid()
      ensures State() == WorkTable.AcceptIntake(old(State()), lane, source, event, payload, command, now)
      ensures id.Some? ==> id.value < |work| && work[id.value].kind == Intake && work[id.value].source == source
      ensures id.None? ==> lane !in lanes
    {
      hide TableInv, Evolves, Untouched;
      AcceptKeeps(State(), lane, source, event, payload, command, now);
      var existing := Lookup(Intake, source);
      if existing.Some? {
        return existing;
      }
      ghost var before := |work|;
      id := InsertWork(Intake, source, lane, event, payload, now);
      if id.Some? && command {
        assert id.value == before by {
          hide MaxSequence;
          FindInserted(work, Intake, source, before, id.value, old(work));
        }
        commands := commands[id.value := Command(Pending, None)];
      }
    }

    lemma FindInserted(after: seq<Row>, kind: WorkKind, source: SourceKey, last: nat, id: nat, before: seq<Row>)
      requires |after| == last + 1 && |before| == last && after[..last] == before && id < |after|
      requires after[id].kind == kind && after[id].source == source && FindSource(before, kind, source).None?
      ensures id == last
    {
      if id < last {
        assert before[id] == after[id];
        FindSourceComplete(before, kind, source, id);
      }
    }

    // ---- Claims ---------------------------------------------------------------------------------

    /** The first due head, in claim order, that is not among the given ones. */
    method NextHead(now: Time, kind: Option<WorkKind>, taken: seq<nat>) returns (best: Option<nat>)
      ensures best.None? ==> forall j :: 0 <= j < |work| && DueHead(work, kind, now, j) ==> j in taken
      ensures best.Some? ==>
        && DueHead(work, kind, now, best.value) && best.value !in taken
        && forall j :: 0 <= j < |work| && DueHead(work, kind, now, j) && j !in taken ==>
             !Before(work[j], work[best.value])
    {
      best := None;
      for i := 0 to |work|
        invariant best.None? ==> forall j :: 0 <= j < i && DueHead(work, kind, now, j) ==> j in taken
        invariant best.Some? ==> best.value < |work|
        invariant best.Some? ==>
          && DueHead(work, kind, now, best.value) && best.value !in taken
          && forall j :: 0 <= j < i && DueHead(work, kind, now, j) && j !in taken ==> !Before(work[j], work[best.value])
      {
        if DueHead(work, kind, now, i) && i !in taken && (best.None? || Before(work[i], work[best.value])) {
          best := Some(i);
        }
        hide DueHead;
      }
    }

    /** SELECT ... ORDER BY available_at, sequence LIMIT 8: the eight first due heads, or all of them. */
    method Candidates(now: Time, kind: Option<WorkKind>) returns (heads: seq<nat>)
      ensures |heads| <= 8
      ensures forall k :: 0 <= k < |heads| ==> heads[k] < |work| && DueHead(work, kind, now, heads[k])
      ensures forall a, b :: 0 <= a < b < |heads| ==> heads[a] != heads[b] && !Before(work[heads[b]], work[heads[a]])
      ensures |heads| < 8 ==> forall j :: 0 <= j < |work| && DueHead(work, kind, now, j) ==> j in heads
      ensures forall j, k :: 0 <= j < |work| && DueHead(work, kind, now, j) && j !in heads && 0 <= k < |heads| ==>
        !Before(work[j], work[heads[k]])
    {
      heads := [];
      while |heads| < 8
        invariant |heads| <= 8
        invariant forall k :: 0 <= k < |heads| ==> heads[k] < |work| && DueHead(work, kind, now, heads[k])
        invariant forall a, b :: 0 <= a < b < |heads| ==>
          heads[a] != heads[b] && !Before(work[heads[b]], work[heads[a]])
        invariant forall j, k :: 0 <= j < |work| && DueHead(work, kind, now, j) && j !in heads && 0 <= k < |heads| ==>
          !Before(work[j], work[heads[k]])
      {
        var next := NextHead(now, kind, heads);
        assert next.Some? ==> next.value < |work|;
        hide DueHead, Before;
        if next.None? {
          return;
        }
        heads := heads + [next.value];
      }
    }

    /**
     Claims a first due head. Nothing is returned exactly when no head is due: the eight-row scan
     never hides one, because inside one transaction its first compare-and-set succeeds.
     */
    method ClaimReady(worker: nat, now: Time, kind: Option<WorkKind>) returns (claim: Option<Token>)
      requires Valid()
      modifies this`work
      ensures Valid()
      ensures claim.None? <==> forall id :: 0 <= id < |old(work)| ==> !DueHead(old(work), kind, now, id)
      ensures claim.None? ==> State() == old(State())
      ensures claim.Some? ==>
        && Claimable(old(work), kind, now, claim.value.id)
        && State() == WorkTable.Claim(policy, old(State()), claim.value.id, worker, now)
        && claim.value.generation == old(work)[claim.value.id].generation + 1
        && Live(State(), claim.value)
    {
      hide TableInv, Evolves, DueHead, Claimable, Before;
      var candidates := Candidates(now, kind);
      if candidates != [] {
        FirstIsClaimable(candidates, kind, now);
        ClaimKeeps(policy, State(), candidates[0], kind, worker, now);
      }
      for k := 0 to |candidates|
        invariant work == old(work)
        invariant forall m :: 0 <= m < k ==> work[candidates[m]].state != Ready
      {
        var id := candidates[k];
        var next := work[id].generation + 1;
        if work[id].state == Ready && work[id].generation == next - 1 {
          if k > 0 {
            DueHeadIsReady(kind, now, candidates[0]);
            assert false;
          }
          work := work[id := work[id].(state := Claimed, claimOwner := Some(worker),
            claimUntil := Some(now + policy.ttl), generation := next, attempts := work[id].attempts + 1)];
          return Some(Token(id, next));
        }
      }
      if candidates != [] {
        DueHeadIsReady(kind, now, candidates[0]);
        assert false;
      }
      return None;
    }

    lemma DueHeadIsReady(kind: Option<WorkKind>, now: Time, id: nat)
      requires DueHead(work, kind, now, id)
      ensures id < |work| && work[id].state == Ready
    {
    }

    lemma FirstIsClaimable(candidates: seq<nat>, kind: Option<WorkKind>, now: Time)
      requires candidates != [] && candidates[0] < |work| && DueHead(work, kind, now, candidates[0])
      requires forall k :: 0 < k < |candidates| ==>
        candidates[k] < |work| && !Before(work[candidates[k]], work[candidates[0]])
      requires forall j :: 0 <= j < |work| && DueHead(work, kind, now, j) && j !in candidates ==>
        !Before(work[j], work[candidates[0]])
      ensures Claimable(work, kind, now, candidates[0])
    {
      hide DueHead;
      forall j | 0 <= j < |work| && DueHead(work, kind, now, j) ensures !Before(work[j], work[candidates[0]]) {
        if j in candidates {
          var k :| 0 <= k < |candidates| && candidates[k] == j;
        }
      }
    }

    method MarkSending(t: Token) returns (marked: bool)
      requires Valid()
      modifies this`work
      ensures Valid() && State() == WorkTable.MarkSending(old(State()), t) && marked == Live(old(State()), t)
    {
      hide TableInv, Evolves;
      MarkSendingKeeps(State(), t);
      marked := t.id < |work| && work[t.id].state == Claimed && work[t.id].generation == t.generation;
      if marked {
        work := work[t.id := work[t.id].(sendAttempted := true)];
      }
    }

    method Release(t: Token, now: Time) returns (released: bool)
      requires Valid()
      modifies this`work
      ensures Valid() && State() == WorkTable.Release(old(State()), t, now) && released == Live(old(State()), t)
    {
      hide TableInv, Evolves;
      ReleaseKeeps(State(), t, now);
      released := t.id < |work| && work[t.id].state == Claimed && work[t.id].generation == t.generation;
      if released {
        var r := work[t.id];
        var attempts := if r.attempts - 1 > 0 then r.attempts - 1 else 0;
        work := work[t.id := r.(state := Ready, availableAt := now, attempts := attempts, claimOwner := None,
          claimUntil := None)];
      }
    }

    // ---- Settling and commands ------------------------------------------------------------------

    method CompleteCommand(id: nat, result: CommandResult, agentControlled: bool, now: Time)
      requires Valid() && id in commands && id < |work| && work[id].generation > 0
      modifies this`work, this`commands
      ensures Valid() && id < |old(work)| <= |work| && work[id].state == Done
      ensures State() == WorkTable.CompleteCommand(old(State()), id, result, agentControlled, now)
    {
      hide TableInv, Evolves, FindSource, MaxSequence;
      CommandIsIntake(State(), id);
      CompleteKeeps(State(), id, result, agentControlled, now);
      LaneIsKnown(State(), id);
      var r := work[id];
      var receipt := InsertWork(Delivery, ReceiptKey(id), r.lane, CommandReceipt(r.source),
        Receipt(result, agentControlled), now);
      assert work[id] == r;
      commands := commands[id := Command(Finished(result), None)];
      work := work[id := r.(state := Done, generation := r.generation + 1, claimOwner := None, claimUntil := None)];
    }

    lemma LaneIsKnown(db: Db, id: nat)
      requires TableInv(db) && id < |db.work|
      ensures db.work[id].lane in db.lanes
    {
    }

    /** The state the row settled into, or None for a stale claim, which changes nothing. */
    method Settle(t: Token, outcome: Outcome, now: Time) returns (state: Option<WorkState>)
      requires Valid()
      modifies this`work, this`commands
      ensures Valid() && State() == WorkTable.Settle(policy, old(State()), t, outcome, now)
      ensures state.None? <==> !Live(old(State()), t)
      ensures state.Some? ==> t.id < |work| && work[t.id].state == state.value
      ensures state == Some(RetryWait) ==> old(work)[t.id].attempts < policy.maxAttempts
    {
      hide TableInv, Evolves, Backoff, WorkTable.CompleteCommand;
      SettleKeeps(policy, State(), t, outcome, now);
      if t.id >= |work| || work[t.id].state != Claimed || work[t.id].generation != t.generation {
        return None;
      }
      var current := work[t.id];
      if t.id in commands && commands[t.id].status == Pending &&
         (outcome.Fail? || (outcome.Retry? && current.attempts >= policy.maxAttempts))
      {
        GoodRowAt(State(), t.id);
        CompleteCommand(t.id, Rejected, false, now);
        return Some(Done);
      }
      match outcome
      case Sent(ext) =>
        work := work[t.id := current.(state := Done, externalId := ext, claimOwner := None, claimUntil := None)];
        return Some(Done);
      case Ambiguous =>
        work := work[t.id := current.(state := DeliveryUnknown, claimOwner := None, claimUntil := None)];
        return Some(DeliveryUnknown);
      case Retry =>
        if current.attempts >= policy.maxAttempts {
          work := work[t.id := current.(state := Failed, claimOwner := None, claimUntil := None)];
          return Some(Failed);
        }
        var wait := Backoff(policy, current.attempts);
        work := work[t.id := current.(state := RetryWait, availableAt := now + wait, claimOwner := None,
          claimUntil := None)];
        return Some(RetryWait);
      case Fail =>
        work := work[t.id := current.(state := Failed, claimOwner := None, claimUntil := None)];
        return Some(Failed);
    }

    method StartCommand(t: Token, now: Time, timeout: nat) returns (started: bool)
      requires Valid()
      modifies this`work, this`commands
      ensures Valid() && State() == WorkTable.StartCommand(old(State()), t, now, timeout)
      ensures started == Startable(old(State()), t)
    {
      hide TableInv, Evolves;
      StartCommandKeeps(State(), t, now, timeout);
      if t.id >= |work| || work[t.id].state != Claimed || work[t.id].generation != t.generation {
        return false;
      }
      if t.id !in commands || commands[t.id].status != Pending {
        return false;
      }
      var deadline := Some(now + timeout);
      commands := commands[t.id := Command(Attempted, deadline)];
      work := work[t.id := work[t.id].(claimUntil := deadline)];
      return true;
    }

    method FinishCommand(t: Token, result: CommandResult, agentControlled: bool, now: Time) returns (finished: bool)
      requires Valid()
      modifies this`work, this`commands
      ensures Valid() && State() == WorkTable.FinishCommand(old(State()), t, result, agentControlled, now)
      ensures finished == Finishable(old(State()), t, result)
    {
      hide TableInv, WorkTable.CompleteCommand;
      if t.id >= |work| || work[t.id].state !in {Claimed, Failed} || work[t.id].generation != t.generation {
        return false;
      }
      if t.id !in commands {
        return false;
      }
      var status := commands[t.id].status;
      if status != Attempted && !(status == Pending && result == Rejected) {
        return false;
      }
      if work[t.id].state == Failed && !(status == Pending && result == Rejected) {
        return false;
      }
      GoodRowAt(State(), t.id);
      CompleteCommand(t.id, result, agentControlled, now);
      return true;
    }

    // ---- Reconcile ------------------------------------------------------------------------------

    method Reconcile(now: Time)
      requires Valid()
      modifies this`work, this`commands
      ensures Valid() && State() == WorkTable.Reconcile(old(State()), now)
      ensures lanes == old(lanes) && cursors == old(cursors) && Reconciliation.NothingOverdue(work, now)
      ensures Reconciliation.RowsReconciled(old(State()), work, now)
      ensures Reconciliation.CommandsReconciled(old(State()), commands, now)
      ensures Reconciliation.ReceiptsReconciled(old(State()), work, now)
    {
      hide TableInv, Evolves, WorkTable.CompleteCommand, SweptRow;
      ghost var before := State();
      ReconcileKeeps(before, now);
      Reconciliation.ReconcileMeans(before, now);
      RejectStrandedCommands(now);
      ExpireAttemptedCommands(now);
      ghost var expired := State();
      SweepClaims(now);
      ghost var swept := work;
      WakeRetries(now);
      SweepIsPointwise(expired, swept, work, now);
      hide RejectStranded, ExpireCommands;
    }

    /** The two sweeps together, row by row. */
    lemma SweepIsPointwise(db: Db, claims: seq<Row>, retries: seq<Row>, now: Time)
      requires |claims| == |retries| == |db.work|
      requires forall i :: 0 <= i < |claims| ==>
        claims[i] == if db.work[i].state == RetryWait then db.work[i] else SweptRow(db.work[i], now)
      requires forall i :: 0 <= i < |claims| ==>
        retries[i] == if claims[i].state == RetryWait then SweptRow(claims[i], now) else claims[i]
      ensures Sweep(db, now) == db.(work := retries)
    {
      assert Sweep(db, now).work == retries;
    }

    /** Repairs a rejected command whose row an earlier version failed without completing it. */
    method RejectStrandedCommands(now: Time)
      requires Valid()
      modifies this`work, this`commands
      ensures Valid() && |old(work)| <= |work| && State() == RejectStranded(old(State()), |old(work)|, now)
    {
      hide TableInv, Evolves, WorkTable.CompleteCommand;
      ghost var before := State();
      for id := 0 to |work|
        invariant Valid() && |before.work| <= |work|
        invariant State() == RejectStranded(before, id, now)
      {
        if id in commands && commands[id].status == Pending && work[id].state == Failed {
          CommandWasClaimed(State(), id, now);
          CompleteCommand(id, Rejected, false, now);
        }
      }
    }

    /** A lost response cannot be repeated: past its deadline an attempt ends as unknown. */
    method ExpireAttemptedCommands(now: Time)
      requires Valid()
      modifies this`work, this`commands
      ensures Valid() && |old(work)| <= |work| && State() == ExpireCommands(old(State()), |old(work)|, now)
    {
      hide TableInv, Evolves, WorkTable.CompleteCommand;
      ghost var before := State();
      for id := 0 to |work|
        invariant Valid() && |before.work| <= |work|
        invariant State() == ExpireCommands(before, id, now)
      {
        if id in commands && commands[id].status == Attempted && commands[id].deadline.Some? &&
          commands[id].deadline.value <= now {
          CommandWasClaimed(State(), id, now);
          CompleteCommand(id, Unknown, false, now);
        }
      }
    }

    /** Expired claims: a marked delivery is ambiguous, anything else may safely be tried again. */
    method SweepClaims(now: Time)
      modifies this`work
      ensures |work| == |old(work)|
      ensures forall i :: 0 <= i < |work| ==>
        work[i] == if old(work)[i].state == RetryWait then old(work)[i] else SweptRow(old(work)[i], now)
      ensures forall i :: 0 <= i < |work| ==>
        if Reconciliation.ClaimRanOut(old(work)[i], now) then Reconciliation.Returned(old(work)[i], work[i], now)
        else work[i] == old(work)[i]
    {
      for i := 0 to |work|
        invariant |work| == |old(work)|
        invariant forall j :: i <= j < |work| ==> work[j] == old(work)[j]
        invariant forall j :: 0 <= j < i ==>
          work[j] == if old(work)[j].state == RetryWait then old(work)[j] else SweptRow(old(work)[j], now)
      {
        var r := work[i];
        if r.state == Claimed && r.claimUntil.Some? && r.claimUntil.value <= now {
          if r.kind == Delivery && r.sendAttempted {
            work := work[i := r.(state := DeliveryUnknown, generation := r.generation + 1, claimOwner := None,
              claimUntil := None)];
          } else {
            work := work[i := r.(state := Ready, generation := r.generation + 1, claimOwner := None,
              claimUntil := None)];
          }
        }
      }
    }

    method WakeRetries(now: Time)
      modifies this`work
      ensures |work| == |old(work)|
      ensures forall i :: 0 <= i < |work| ==>
        work[i] == if old(work)[i].state == RetryWait then SweptRow(old(work)[i], now) else old(work)[i]
      ensures forall i :: 0 <= i < |work| ==>
        if Reconciliation.BackoffOver(old(work)[i], now) then work[i] == old(work)[i].(state := Ready)
        else work[i] == old(work)[i]
    {
      for i := 0 to |work|
        invariant |work| == |old(work)|
        invariant forall j :: i <= j < |work| ==> work[j] == old(work)[j]
        invariant forall j :: 0 <= j < i ==>
          work[j] == if old(work)[j].state == RetryWait then SweptRow(old(work)[j], now) else old(work)[j]
      {
        if work[i].state == RetryWait && work[i].availableAt <= now {
          work := work[i := work[i].(state := Ready)];
        }
      }
    }

    // ---- Operator repairs and cursors -----------------------------------------------------------

    method Skip(id: nat) returns (skipped: bool)
      requires Valid()
      modifies this`work
      ensures Valid() && State() == WorkTable.Skip(old(State()), id) && skipped == Blocked(old(State()), id)
    {
      hide TableInv, Evolves;
      SkipKeeps(State(), id);
      skipped := id < |work| && work[id].state in {Failed, DeliveryUnknown};
      if skipped {
        work := work[id := work[id].(state := Skipped)];
      }
    }

    method ConfirmDelivered(id: nat, ext: Option<nat>) returns (confirmed: bool)
      requires Valid()
      modifies this`work
      ensures Valid() && State() == WorkTable.ConfirmDelivered(old(State()), id, ext)
      ensures confirmed == (id < |old(work)| && old(work)[id].state == DeliveryUnknown)
    {
      hide TableInv, Evolves;
      ConfirmKeeps(State(), id, ext);
      confirmed := id < |work| && work[id].state == DeliveryUnknown;
      if confirmed {
        work := work[id := work[id].(state := Done, externalId := ext)];
      }
    }

    method Requeue(id: nat, now: Time) returns (requeued: bool)
      requires Valid()
      modifies this`work
      ensures Valid() && State() == WorkTable.Requeue(old(State()), id, now) && requeued == Blocked(old(State()), id)
    {
      hide TableInv, Evolves;
      RequeueKeeps(State(), id, now);
      requeued := id < |work| && work[id].state in {Failed, DeliveryUnknown};
      if requeued {
        var r := work[id];
        work := work[id := r.(state := Ready, availableAt := now, sendAttempted := false, claimOwner := None,
                              claimUntil := None, generation := r.generation + 1)];
      }
    }

    method SetCursor(lane: LaneKey, next: nat)
      requires Valid()
      modifies this`cursors
      ensures Valid() && State() == WorkTable.SetCursor(old(State()), lane, next)
    {
      hide TableInv, Evolves;
      ApplyKeeps(policy, State(), Call(OpSetCursor(lane, next), 0));
      cursors := cursors[lane := Cursor(Some(next), lane in cursors && cursors[lane].parked)];
    }

    /** Parking keeps the cursor's position, so an un-parked projector resumes where it left off. */
    method ParkCursor(lane: LaneKey)
      requires Valid()
      modifies this`cursors
      ensures Valid() && State() == WorkTable.ParkCursor(old(State()), lane)
      ensures Parked(State(), lane) && CursorOf(State(), lane) == CursorOf(old(State()), lane)
    {
      hide TableInv, Evolves;
      ApplyKeeps(policy, State(), Call(OpPark(lane), 0));
      cursors := cursors[lane := Cursor(if lane in cursors then cursors[lane].next else None, true)];
    }

    method UnparkCursor(lane: LaneKey)
      requires Valid()
      modifies this`cursors
      ensures Valid() && State() == WorkTable.UnparkCursor(old(State()), lane)
      ensures !Parked(State(), lane) && CursorOf(State(), lane) == CursorOf(old(State()), lane)
    {
      hide TableInv, Evolves;
      ApplyKeeps(policy, State(), Call(OpUnpark(lane), 0));
      if lane in cursors {
        cursors := cursors[lane := cursors[lane].(parked := false)];
      }
    }
  }
}
