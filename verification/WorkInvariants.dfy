/**
 What every store transaction keeps, whoever calls it and in whatever order.

 Each transaction is reduced to two moves: replacing one row by a successor of it, and appending one
 fresh row. The invariant and the row order below are proved once for those moves.
 */
module WorkInvariants {
  import opened Identities
  import opened WorkTable

  // ---- The order in which a row may evolve ------------------------------------------------------

  predicate SameIdentity(a: Row, b: Row) {
    && a.kind == b.kind
    && a.source == b.source
    && a.lane == b.lane
    && a.sequence == b.sequence
    && a.agentEvent == b.agentEvent
    && a.payload == b.payload
  }

  /**
   b is what a may become: its identity is fixed, done and skipped absorb, a generation is never
   claimed twice and one claim counts one attempt, only a new generation clears a send mark, and an
   untouched row has never moved.
   */
  predicate Successor(a: Row, b: Row) {
    && SameIdentity(a, b)
    && a.generation <= b.generation
    && (Resolved(a) ==> Resolved(b))
    && (b.generation == a.generation && b.state == Claimed ==> a.state == Claimed)
    && (b.generation == a.generation && a.sendAttempted ==> b.sendAttempted)
    && (b.generation == a.generation && b.state == Claimed ==> b.attempts == a.attempts)
    && (Untouched(b) ==> b == a)
  }

  predicate Evolves(a: Db, b: Db) {
    && |a.work| <= |b.work|
    && forall i :: 0 <= i < |a.work| ==> Successor(a.work[i], b.work[i])
  }

  lemma EvolvesReflexive(db: Db)
    ensures Evolves(db, db)
  {
  }

  lemma EvolvesTransitive(a: Db, b: Db, c: Db)
    requires Evolves(a, b) && Evolves(b, c)
    ensures Evolves(a, c)
  {
    forall i | 0 <= i < |a.work| ensures Successor(a.work[i], c.work[i]) {
      assert Successor(a.work[i], b.work[i]) && Successor(b.work[i], c.work[i]);
    }
  }

  // ---- The invariant ----------------------------------------------------------------------------

  predicate GoodRow(r: Row) {
    (r.generation == 0 ==> Untouched(r)) && (r.state == Claimed <==> r.claimUntil.Some?)
  }

  /** Rows are numbered per lane and kind in insertion order. */
  predicate Numbered(work: seq<Row>) {
    && (forall i :: 0 <= i < |work| ==>
          work[i].sequence == MaxSequence(work[..i], work[i].lane, work[i].kind) + 1)
    && (forall i, j :: 0 <= i < j < |work| && SameQueue(work[i], work[j]) ==>
          work[i].sequence < work[j].sequence)
  }

  predicate UniqueSources(work: seq<Row>) {
    forall i, j :: 0 <= i < j < |work| && work[i].kind == work[j].kind ==> work[i].source != work[j].source
  }

  /** Behind an unresolved row nothing of its lane and kind has been touched. */
  predicate HeadOfLine(work: seq<Row>) {
    forall i, j :: 0 <= i < j < |work| && SameQueue(work[i], work[j]) && !Resolved(work[i]) ==> Untouched(work[j])
  }

  predicate GoodCommands(db: Db) {
    forall id :: id in db.commands ==>
      && id < |db.work|
      && db.work[id].kind == Intake
      && (db.commands[id].status != Pending ==> db.work[id].generation > 0)
  }

  predicate TableInv(db: Db) {
    && (forall i :: 0 <= i < |db.work| ==> db.work[i].lane in db.lanes && GoodRow(db.work[i]))
    && Numbered(db.work)
    && UniqueSources(db.work)
    && HeadOfLine(db.work)
    && GoodCommands(db)
  }

  // ---- The two moves ----------------------------------------------------------------------------

  lemma {:induction false} MaxSequenceSame(a: seq<Row>, b: seq<Row>, lane: LaneKey, kind: WorkKind)
    requires |a| == |b|
    requires forall i :: 0 <= i < |a| ==> SameIdentity(a[i], b[i])
    ensures MaxSequence(a, lane, kind) == MaxSequence(b, lane, kind)
  {
    if a != [] {
      MaxSequenceSame(a[..|a| - 1], b[..|b| - 1], lane, kind);
    }
  }

  lemma NumberedSame(a: seq<Row>, b: seq<Row>)
    requires |a| == |b| && Numbered(a)
    requires forall i :: 0 <= i < |a| ==> SameIdentity(a[i], b[i])
    ensures Numbered(b)
  {
    forall i | 0 <= i < |b| ensures b[i].sequence == MaxSequence(b[..i], b[i].lane, b[i].kind) + 1 {
      MaxSequenceSame(a[..i], b[..i], b[i].lane, b[i].kind);
    }
  }

  lemma {:induction false} MaxSequenceBounds(work: seq<Row>, i: nat)
    requires i < |work|
    ensures work[i].sequence <= MaxSequence(work, work[i].lane, work[i].kind)
  {
    if i < |work| - 1 {
      MaxSequenceBounds(work[..|work| - 1], i);
    }
  }

  lemma {:induction false} FindSourceComplete(work: seq<Row>, kind: WorkKind, source: SourceKey, i: nat)
    requires i < |work| && work[i].kind == kind && work[i].source == source
    ensures FindSource(work, kind, source).Some?
  {
    if i < |work| - 1 {
      FindSourceComplete(work[..|work| - 1], kind, source, i);
    }
  }

  lemma PutHeadOfLine(work: seq<Row>, id: nat, r: Row)
    requires HeadOfLine(work) && id < |work| && Successor(work[id], r)
    requires Untouched(work[id]) && r != work[id] ==>
      forall j :: 0 <= j < id && SameQueue(work[j], r) ==> Resolved(work[j])
    ensures HeadOfLine(work[id := r])
  {
    var after := work[id := r];
    forall i, j | 0 <= i < j < |after| && SameQueue(after[i], after[j]) && !Resolved(after[i])
      ensures Untouched(after[j])
    {
      assert SameQueue(work[i], work[j]) && !Resolved(work[i]);
    }
  }

  lemma PutUnique(work: seq<Row>, id: nat, r: Row)
    requires UniqueSources(work) && id < |work| && SameIdentity(work[id], r)
    ensures UniqueSources(work[id := r])
  {
  }

  lemma PutCommands(db: Db, id: nat, r: Row)
    requires GoodCommands(db) && id < |db.work| && Successor(db.work[id], r)
    ensures GoodCommands(db.(work := db.work[id := r]))
  {
  }

  /** Replacing one row by a successor; a row may only be touched at the head of its queue. */
  lemma PutKeeps(db: Db, id: nat, r: Row)
    requires TableInv(db) && id < |db.work|
    requires Successor(db.work[id], r) && GoodRow(r)
    requires Untouched(db.work[id]) && r != db.work[id] ==>
      forall j :: 0 <= j < id && SameQueue(db.work[j], r) ==> Resolved(db.work[j])
    ensures TableInv(db.(work := db.work[id := r]))
    ensures Evolves(db, db.(work := db.work[id := r]))
  {
    NumberedSame(db.work, db.work[id := r]);
    PutHeadOfLine(db.work, id, r);
    PutUnique(db.work, id, r);
    PutCommands(db, id, r);
    hide Numbered, UniqueSources, HeadOfLine, GoodCommands;
  }

  lemma AppendNumbered(work: seq<Row>, r: Row)
    requires Numbered(work) && r.sequence == MaxSequence(work, r.lane, r.kind) + 1
    ensures Numbered(work + [r])
  {
    var after := work + [r];
    forall i | 0 <= i < |after| ensures after[i].sequence == MaxSequence(after[..i], after[i].lane, after[i].kind) + 1 {
      assert after[..i] == work[..i];
      assert work[..|work|] == work;
    }
    forall i | 0 <= i < |work| && SameQueue(work[i], r) ensures work[i].sequence < r.sequence {
      MaxSequenceBounds(work, i);
    }
  }

  lemma AppendUnique(work: seq<Row>, r: Row)
    requires UniqueSources(work) && FindSource(work, r.kind, r.source).None?
    ensures UniqueSources(work + [r])
  {
    forall i | 0 <= i < |work| && work[i].kind == r.kind ensures work[i].source != r.source {
      if work[i].source == r.source {
        FindSourceComplete(work, r.kind, r.source, i);
      }
    }
  }

  lemma AppendHeadOfLine(work: seq<Row>, r: Row)
    requires HeadOfLine(work) && Untouched(r)
    ensures HeadOfLine(work + [r])
  {
  }

  lemma AppendCommands(db: Db, r: Row)
    requires GoodCommands(db)
    ensures GoodCommands(db.(work := db.work + [r]))
  {
  }

  lemma InsertKeeps(db: Db, kind: WorkKind, source: SourceKey, lane: LaneKey, event: EventId,
                    payload: Payload, now: Time)
    requires TableInv(db)
    ensures TableInv(InsertWork(db, kind, source, lane, event, payload, now))
    ensures Evolves(db, InsertWork(db, kind, source, lane, event, payload, now))
  {
    if lane in db.lanes && FindSource(db.work, kind, source).None? {
      AppendKeeps(db, NewRow(db.work, kind, source, lane, event, payload, now));
    }
  }

  lemma AppendKeeps(db: Db, r: Row)
    requires TableInv(db) && Untouched(r) && r.lane in db.lanes
    requires r.sequence == MaxSequence(db.work, r.lane, r.kind) + 1
    requires FindSource(db.work, r.kind, r.source).None?
    ensures TableInv(db.(work := db.work + [r])) && Evolves(db, db.(work := db.work + [r]))
  {
    hide Numbered, UniqueSources, HeadOfLine, GoodCommands, FindSource, MaxSequence, Successor;
    AppendNumbered(db.work, r);
    AppendUnique(db.work, r);
    AppendHeadOfLine(db.work, r);
    AppendCommands(db, r);
    assert GoodRow(r);
    forall i | 0 <= i < |db.work| ensures Successor(db.work[i], (db.work + [r])[i]) {
      SuccessorReflexive(db.work[i]);
    }
  }

  lemma SuccessorReflexive(r: Row)
    ensures Successor(r, r)
  {
  }

  // ---- Each transaction -------------------------------------------------------------------------

  lemma DueHeadIsFirst(db: Db, kind: Option<WorkKind>, now: Time, id: nat)
    requires TableInv(db) && DueHead(db.work, kind, now, id)
    ensures forall j :: 0 <= j < id && SameQueue(db.work[j], db.work[id]) ==> Resolved(db.work[j])
  {
  }

  lemma ClaimKeeps(policy: Policy, db: Db, id: nat, kind: Option<WorkKind>, owner: nat, now: Time)
    requires TableInv(db) && DueHead(db.work, kind, now, id)
    ensures TableInv(Claim(policy, db, id, owner, now))
    ensures Evolves(db, Claim(policy, db, id, owner, now))
  {
    DueHeadIsFirst(db, kind, now, id);
    PutKeeps(db, id, ClaimedRow(policy, db.work[id], owner, now));
  }

  lemma CompleteKeeps(db: Db, id: nat, result: CommandResult, agentControlled: bool, now: Time)
    requires TableInv(db) && id in db.commands && db.work[id].generation > 0
    ensures TableInv(CompleteCommand(db, id, result, agentControlled, now))
    ensures Evolves(db, CompleteCommand(db, id, result, agentControlled, now))
  {
    var r := db.work[id];
    InsertKeeps(db, Delivery, ReceiptKey(id), r.lane, CommandReceipt(r.source), Receipt(result, agentControlled), now);
    CompleteAfterReceipt(db, InsertWork(db, Delivery, ReceiptKey(id), r.lane, CommandReceipt(r.source),
                                        Receipt(result, agentControlled), now), id, result);
  }

  lemma CompleteAfterReceipt(db: Db, receipted: Db, id: nat, result: CommandResult)
    requires TableInv(receipted) && Evolves(db, receipted) && id < |db.work| && db.work[id] == receipted.work[id]
    requires id in receipted.commands && db.work[id].generation > 0
    ensures var after := receipted.(work := receipted.work[id := CompletedRow(db.work[id])],
                                    commands := receipted.commands[id := Command(Finished(result), None)]);
            TableInv(after) && Evolves(db, after)
  {
    var done := receipted.(work := receipted.work[id := CompletedRow(db.work[id])]);
    PutKeeps(receipted, id, CompletedRow(db.work[id]));
    JournalKeeps(done, id, Command(Finished(result), None));
    EvolvesTransitive(db, receipted, done);
    hide TableInv;
  }

  lemma JournalKeeps(db: Db, id: nat, entry: Command)
    requires TableInv(db) && id < |db.work| && db.work[id].kind == Intake
    requires entry.status != Pending ==> db.work[id].generation > 0
    ensures TableInv(db.(commands := db.commands[id := entry]))
  {
    hide Numbered, UniqueSources, HeadOfLine;
  }

  /** A row that is not untouched may be replaced by any good successor. */
  lemma TouchedPutKeeps(db: Db, id: nat, r: Row)
    requires TableInv(db) && id < |db.work| && !Untouched(db.work[id])
    requires Successor(db.work[id], r) && GoodRow(r)
    ensures TableInv(db.(work := db.work[id := r]))
    ensures Evolves(db, db.(work := db.work[id := r]))
  {
    hide TableInv, Successor, GoodRow, Evolves;
    PutKeeps(db, id, r);
  }

  lemma GoodRowAt(db: Db, id: nat)
    requires TableInv(db) && id < |db.work|
    ensures GoodRow(db.work[id])
  {
  }

  lemma SettleKeeps(policy: Policy, db: Db, t: Token, outcome: Outcome, now: Time)
    requires TableInv(db)
    ensures TableInv(Settle(policy, db, t, outcome, now)) && Evolves(db, Settle(policy, db, t, outcome, now))
  {
    if Live(db, t) {
      GoodRowAt(db, t.id);
      if RejectsPending(policy, db, t.id, outcome) {
        CompleteKeeps(db, t.id, Rejected, false, now) by { assert t.id in db.commands; }
      } else {
        hide TableInv, Evolves;
        TouchedPutKeeps(db, t.id, SettledRow(policy, db.work[t.id], outcome, now));
      }
    }
    hide TableInv, CompleteCommand, SettledRow;
  }

  lemma ReleaseKeeps(db: Db, t: Token, now: Time)
    requires TableInv(db)
    ensures TableInv(Release(db, t, now)) && Evolves(db, Release(db, t, now))
  {
    if Live(db, t) {
      GoodRowAt(db, t.id);
      hide TableInv, Evolves;
      TouchedPutKeeps(db, t.id, Release(db, t, now).work[t.id]);
    }
    hide TableInv;
  }

  lemma MarkSendingKeeps(db: Db, t: Token)
    requires TableInv(db)
    ensures TableInv(MarkSending(db, t)) && Evolves(db, MarkSending(db, t))
  {
    if Live(db, t) {
      GoodRowAt(db, t.id);
      hide TableInv, Evolves;
      TouchedPutKeeps(db, t.id, db.work[t.id].(sendAttempted := true));
    }
    hide TableInv;
  }

  lemma StartCommandKeeps(db: Db, t: Token, now: Time, timeout: nat)
    requires TableInv(db)
    ensures TableInv(StartCommand(db, t, now, timeout)) && Evolves(db, StartCommand(db, t, now, timeout))
  {
    hide TableInv, Evolves;
    EvolvesReflexive(db);
    if Startable(db, t) {
      GoodRowAt(db, t.id);
      CommandIsIntake(db, t.id);
      var r := db.work[t.id].(claimUntil := Some(now + timeout));
      TouchedPutKeeps(db, t.id, r);
      var put := db.(work := db.work[t.id := r]);
      JournalKeeps(put, t.id, Command(Attempted, Some(now + timeout)));
      SameRowsEvolve(db, put, StartCommand(db, t, now, timeout));
    }
  }

  lemma SameRowsEvolve(a: Db, b: Db, c: Db)
    requires Evolves(a, b) && c.work == b.work
    ensures Evolves(a, c)
  {
  }

  lemma CommandIsIntake(db: Db, id: nat)
    requires TableInv(db) && id in db.commands
    ensures id < |db.work| && db.work[id].kind == Intake
  {
  }

  lemma FinishCommandKeeps(db: Db, t: Token, result: CommandResult, agentControlled: bool, now: Time)
    requires TableInv(db)
    ensures TableInv(FinishCommand(db, t, result, agentControlled, now))
    ensures Evolves(db, FinishCommand(db, t, result, agentControlled, now))
  {
    if Finishable(db, t, result) {
      GoodRowAt(db, t.id);
      CompleteKeeps(db, t.id, result, agentControlled, now);
    }
    hide TableInv, CompleteCommand;
  }

  lemma AcceptKeeps(db: Db, lane: LaneKey, source: SourceKey, event: EventId, payload: Payload,
                    command: bool, now: Time)
    requires TableInv(db)
    ensures TableInv(AcceptIntake(db, lane, source, event, payload, command, now))
    ensures Evolves(db, AcceptIntake(db, lane, source, event, payload, command, now))
  {
    hide TableInv, FindSource, MaxSequence, Successor, Untouched;
    InsertKeeps(db, Intake, source, lane, event, payload, now);
    if command && lane in db.lanes && FindSource(db.work, Intake, source).None? {
      JournalKeeps(InsertWork(db, Intake, source, lane, event, payload, now), |db.work|, Command(Pending, None));
    }
  }

  lemma CommandWasClaimed(db: Db, id: nat, now: Time)
    requires TableInv(db) && (StrandedCommand(db, id) || ExpiredCommand(db, id, now))
    ensures id in db.commands && db.work[id].generation > 0
  {
    assert GoodRow(db.work[id]);
  }

  lemma {:induction false} RejectStrandedKeeps(db: Db, n: nat, now: Time)
    requires TableInv(db) && n <= |db.work|
    ensures TableInv(RejectStranded(db, n, now)) && Evolves(db, RejectStranded(db, n, now))
  {
    if n == 0 {
      hide TableInv;
    } else {
      hide TableInv, CompleteCommand;
      RejectStrandedKeeps(db, n - 1, now);
      var before := RejectStranded(db, n - 1, now);
      if StrandedCommand(before, n - 1) {
        CommandWasClaimed(before, n - 1, now);
        CompleteKeeps(before, n - 1, Rejected, false, now);
        EvolvesTransitive(db, before, RejectStranded(db, n, now));
      }
    }
  }

  lemma {:induction false} ExpireCommandsKeeps(db: Db, n: nat, now: Time)
    requires TableInv(db) && n <= |db.work|
    ensures TableInv(ExpireCommands(db, n, now)) && Evolves(db, ExpireCommands(db, n, now))
  {
    if n == 0 {
      hide TableInv;
    } else {
      hide TableInv, CompleteCommand;
      ExpireCommandsKeeps(db, n - 1, now);
      var before := ExpireCommands(db, n - 1, now);
      if ExpiredCommand(before, n - 1, now) {
        CommandWasClaimed(before, n - 1, now);
        CompleteKeeps(before, n - 1, Unknown, false, now);
        EvolvesTransitive(db, before, ExpireCommands(db, n, now));
      }
    }
  }

  lemma SweptIsSuccessor(r: Row, now: Time)
    requires GoodRow(r)
    ensures Successor(r, SweptRow(r, now)) && GoodRow(SweptRow(r, now))
    ensures Untouched(r) ==> SweptRow(r, now) == r
  {
  }

  lemma SweepHeadOfLine(a: seq<Row>, b: seq<Row>)
    requires HeadOfLine(a) && |a| == |b|
    requires forall i :: 0 <= i < |a| ==> Successor(a[i], b[i]) && (Untouched(a[i]) ==> b[i] == a[i])
    ensures HeadOfLine(b)
  {
    hide Untouched;
    forall i, j | 0 <= i < j < |b| && SameQueue(b[i], b[j]) && !Resolved(b[i]) ensures Untouched(b[j]) {
      assert Successor(a[i], b[i]) && Successor(a[j], b[j]);
      assert SameQueue(a[i], a[j]);
    }
  }

  lemma SameCommands(a: Db, b: Db)
    requires GoodCommands(a) && a.commands == b.commands && |a.work| == |b.work|
    requires forall i :: 0 <= i < |a.work| ==> Successor(a.work[i], b.work[i])
    ensures GoodCommands(b)
  {
    hide Untouched, Resolved;
  }

  lemma UniqueSame(a: seq<Row>, b: seq<Row>)
    requires UniqueSources(a) && |a| == |b| && forall i :: 0 <= i < |a| ==> SameIdentity(a[i], b[i])
    ensures UniqueSources(b)
  {
  }

  /** The sweep as a pointwise change. */
  lemma SweepAt(db: Db, now: Time)
    requires TableInv(db)
    ensures |Sweep(db, now).work| == |db.work|
    ensures forall i :: 0 <= i < |db.work| ==>
      && Successor(db.work[i], Sweep(db, now).work[i]) && GoodRow(Sweep(db, now).work[i])
      && (Untouched(db.work[i]) ==> Sweep(db, now).work[i] == db.work[i])
      && SameIdentity(db.work[i], Sweep(db, now).work[i])
  {
    hide Successor, GoodRow, Untouched, SweptRow, SameIdentity, Numbered, UniqueSources, HeadOfLine, GoodCommands;
    forall i | 0 <= i < |db.work|
      ensures Successor(db.work[i], Sweep(db, now).work[i]) && GoodRow(Sweep(db, now).work[i])
      ensures Untouched(db.work[i]) ==> Sweep(db, now).work[i] == db.work[i]
      ensures SameIdentity(db.work[i], Sweep(db, now).work[i])
    {
      SweptIsSuccessor(db.work[i], now);
      SuccessorIsSame(db.work[i], SweptRow(db.work[i], now));
      assert Sweep(db, now).work[i] == SweptRow(db.work[i], now);
    }
  }

  lemma SuccessorIsSame(a: Row, b: Row)
    requires Successor(a, b)
    ensures SameIdentity(a, b)
  {
  }

  lemma SweepKeeps(db: Db, now: Time)
    requires TableInv(db)
    ensures TableInv(Sweep(db, now)) && Evolves(db, Sweep(db, now))
  {
    hide Successor, GoodRow, Untouched, SweptRow, Numbered, UniqueSources, HeadOfLine, GoodCommands;
    SweepAt(db, now);
    NumberedSame(db.work, Sweep(db, now).work);
    UniqueSame(db.work, Sweep(db, now).work);
    SweepHeadOfLine(db.work, Sweep(db, now).work);
    SameCommands(db, Sweep(db, now));
    forall i | 0 <= i < |db.work| ensures Sweep(db, now).work[i].lane in db.lanes {
      assert SameIdentity(db.work[i], Sweep(db, now).work[i]);
    }
  }

  lemma ReconcileKeeps(db: Db, now: Time)
    requires TableInv(db)
    ensures TableInv(Reconcile(db, now)) && Evolves(db, Reconcile(db, now))
  {
    RejectStrandedKeeps(db, |db.work|, now);
    var rejected := RejectStranded(db, |db.work|, now);
    ExpireCommandsKeeps(rejected, |rejected.work|, now);
    var expired := ExpireCommands(rejected, |rejected.work|, now);
    SweepKeeps(expired, now);
    EvolvesTransitive(db, rejected, expired);
    EvolvesTransitive(db, expired, Sweep(expired, now));
  }

  lemma SkipKeeps(db: Db, id: nat)
    requires TableInv(db)
    ensures TableInv(Skip(db, id)) && Evolves(db, Skip(db, id))
  {
    if Blocked(db, id) {
      GoodRowAt(db, id);
      hide TableInv, Evolves;
      TouchedPutKeeps(db, id, db.work[id].(state := Skipped));
    }
    hide TableInv;
  }

  lemma ConfirmKeeps(db: Db, id: nat, ext: Option<nat>)
    requires TableInv(db)
    ensures TableInv(ConfirmDelivered(db, id, ext)) && Evolves(db, ConfirmDelivered(db, id, ext))
  {
    if id < |db.work| && db.work[id].state == DeliveryUnknown {
      GoodRowAt(db, id);
      hide TableInv, Evolves;
      TouchedPutKeeps(db, id, db.work[id].(state := Done, externalId := ext));
    }
    hide TableInv;
  }

  lemma RequeueKeeps(db: Db, id: nat, now: Time)
    requires TableInv(db)
    ensures TableInv(Requeue(db, id, now)) && Evolves(db, Requeue(db, id, now))
  {
    if Blocked(db, id) {
      GoodRowAt(db, id);
      hide TableInv, Evolves;
      TouchedPutKeeps(db, id, RequeuedRow(db.work[id], now));
    }
    hide TableInv;
  }

  // ---- Any sequence of store calls --------------------------------------------------------------

  datatype Op =
    | OpResolveLane(lane: LaneKey, info: Lane)
    | OpAccept(lane: LaneKey, source: SourceKey, event: EventId, payload: Payload, command: bool)
    | OpInsertDelivery(lane: LaneKey, source: SourceKey, event: EventId, payload: Payload)
    | OpClaim(kind: Option<WorkKind>, id: nat, owner: nat)
    | OpMarkSending(token: Token)
    | OpSettle(token: Token, outcome: Outcome)
    | OpRelease(token: Token)
    | OpStartCommand(token: Token, timeout: nat)
    | OpFinishCommand(token: Token, result: CommandResult, agentControlled: bool)
    | OpReconcile
    | OpSkip(id: nat)
    | OpConfirm(id: nat, ext: Option<nat>)
    | OpRequeue(id: nat)
    | OpSetCursor(lane: LaneKey, next: nat)
    | OpPark(lane: LaneKey)
    | OpUnpark(lane: LaneKey)

  datatype Call = Call(op: Op, now: Time)

  function Apply(policy: Policy, db: Db, call: Call): Db {
    var now := call.now;
    match call.op
    case OpResolveLane(lane, info) => ResolveLane(db, lane, info)
    case OpAccept(lane, source, event, payload, command) =>
      AcceptIntake(db, lane, source, event, payload, command, now)
    case OpInsertDelivery(lane, source, event, payload) =>
      InsertWork(db, Delivery, source, lane, event, payload, now)
    case OpClaim(kind, id, owner) =>
      if Claimable(db.work, kind, now, id) then Claim(policy, db, id, owner, now) else db
    case OpMarkSending(t) => MarkSending(db, t)
    case OpSettle(t, outcome) => Settle(policy, db, t, outcome, now)
    case OpRelease(t) => Release(db, t, now)
    case OpStartCommand(t, timeout) => StartCommand(db, t, now, timeout)
    case OpFinishCommand(t, result, agentControlled) => FinishCommand(db, t, result, agentControlled, now)
    case OpReconcile => Reconcile(db, now)
    case OpSkip(id) => Skip(db, id)
    case OpConfirm(id, ext) => ConfirmDelivered(db, id, ext)
    case OpRequeue(id) => Requeue(db, id, now)
    case OpSetCursor(lane, next) => SetCursor(db, lane, next)
    case OpPark(lane) => ParkCursor(db, lane)
    case OpUnpark(lane) => UnparkCursor(db, lane)
  }

  lemma DirectoryKeeps(policy: Policy, db: Db, call: Call)
    requires TableInv(db)
    requires call.op.OpResolveLane? || call.op.OpSetCursor? || call.op.OpPark? || call.op.OpUnpark?
    ensures TableInv(Apply(policy, db, call)) && Evolves(db, Apply(policy, db, call))
  {
    hide Numbered, UniqueSources, HeadOfLine;
  }

  lemma ApplyKeeps(policy: Policy, db: Db, call: Call)
    requires TableInv(db)
    ensures TableInv(Apply(policy, db, call)) && Evolves(db, Apply(policy, db, call))
  {
    EvolvesReflexive(db);
    hide TableInv, Evolves, Settle, Release, StartCommand, FinishCommand, AcceptIntake, InsertWork, Claim, MarkSending,
         Reconcile, Skip, ConfirmDelivered, Requeue;
    var now := call.now;
    match call.op
    case OpAccept(lane, source, event, payload, command) =>
      AcceptKeeps(db, lane, source, event, payload, command, now);
    case OpInsertDelivery(lane, source, event, payload) =>
      InsertKeeps(db, Delivery, source, lane, event, payload, now);
    case OpClaim(kind, id, owner) =>
      if Claimable(db.work, kind, now, id) { ClaimKeeps(policy, db, id, kind, owner, now); }
    case OpMarkSending(t) => MarkSendingKeeps(db, t);
    case OpSettle(t, outcome) => SettleKeeps(policy, db, t, outcome, now);
    case OpRelease(t) => ReleaseKeeps(db, t, now);
    case OpStartCommand(t, timeout) => StartCommandKeeps(db, t, now, timeout);
    case OpFinishCommand(t, result, agentControlled) => FinishCommandKeeps(db, t, result, agentControlled, now);
    case OpReconcile => ReconcileKeeps(db, now);
    case OpSkip(id) => SkipKeeps(db, id);
    case OpConfirm(id, ext) => ConfirmKeeps(db, id, ext);
    case OpRequeue(id) => RequeueKeeps(db, id, now);
    case _ => DirectoryKeeps(policy, db, call);
  }

  /** The state after a whole history of calls on an empty store. */
  function Reached(policy: Policy, calls: seq<Call>): Db {
    if calls == [] then EMPTY
    else Apply(policy, Reached(policy, calls[..|calls| - 1]), calls[|calls| - 1])
  }

  lemma {:induction false} ReachedKeeps(policy: Policy, calls: seq<Call>)
    ensures TableInv(Reached(policy, calls))
  {
    if calls != [] {
      ReachedKeeps(policy, calls[..|calls| - 1]);
      ApplyKeeps(policy, Reached(policy, calls[..|calls| - 1]), calls[|calls| - 1]);
    }
  }

  /** Rows only ever move along Successor: in particular done and skipped absorb as a set. */
  lemma {:induction false} ReachedEvolves(policy: Policy, calls: seq<Call>, n: nat)
    requires n <= |calls|
    ensures Evolves(Reached(policy, calls[..n]), Reached(policy, calls))
  {
    if n == |calls| {
      assert calls[..n] == calls;
    } else {
      var last := |calls| - 1;
      ReachedEvolves(policy, calls[..last], n);
      assert calls[..last][..n] == calls[..n];
      ReachedKeeps(policy, calls[..last]);
      ApplyKeeps(policy, Reached(policy, calls[..last]), calls[last]);
      EvolvesTransitive(Reached(policy, calls[..n]), Reached(policy, calls[..last]), Reached(policy, calls));
    }
  }

  // ---- The shape of a lane ----------------------------------------------------------------------

  /** listLaneWork: one lane and kind in sequence order. */
  function Queue(work: seq<Row>, lane: LaneKey, kind: WorkKind): seq<Row>
  {
    if work == [] then []
    else
      var last := work[|work| - 1];
      Queue(work[..|work| - 1], lane, kind) + (if last.lane == lane && last.kind == kind then [last] else [])
  }

  lemma {:induction false} QueueMember(work: seq<Row>, lane: LaneKey, kind: WorkKind, k: nat) returns (i: nat)
    requires k < |Queue(work, lane, kind)|
    ensures i < |work| && work[i] == Queue(work, lane, kind)[k] && work[i].lane == lane && work[i].kind == kind
  {
    var init := work[..|work| - 1];
    if k < |Queue(init, lane, kind)| {
      i := QueueMember(init, lane, kind, k);
    } else {
      i := |work| - 1;
    }
  }

  lemma {:induction false} QueueNumbered(work: seq<Row>, lane: LaneKey, kind: WorkKind)
    requires Numbered(work)
    ensures MaxSequence(work, lane, kind) == |Queue(work, lane, kind)|
    ensures forall k :: 0 <= k < |Queue(work, lane, kind)| ==> Queue(work, lane, kind)[k].sequence == k + 1
  {
    if work != [] {
      var n := |work| - 1;
      NumberedPrefix(work, n);
      LastIsNumbered(work);
      hide Numbered;
      QueueNumbered(work[..n], lane, kind);
    }
  }

  lemma NumberedPrefix(work: seq<Row>, n: nat)
    requires Numbered(work) && n <= |work|
    ensures Numbered(work[..n])
  {
    hide MaxSequence;
    forall i | 0 <= i < n ensures work[..n][i].sequence ==
      MaxSequence(work[..n][..i], work[..n][i].lane, work[..n][i].kind) + 1 {
      assert work[..n][..i] == work[..i];
    }
  }

  lemma LastIsNumbered(work: seq<Row>)
    requires Numbered(work) && work != []
    ensures var last := work[|work| - 1]; last.sequence == MaxSequence(work[..|work| - 1], last.lane, last.kind) + 1
  {
    hide MaxSequence;
  }

  lemma {:induction false} QueueHeadOfLine(work: seq<Row>, lane: LaneKey, kind: WorkKind, a: nat, b: nat)
    requires HeadOfLine(work) && a < b < |Queue(work, lane, kind)|
    requires !Resolved(Queue(work, lane, kind)[a])
    ensures Untouched(Queue(work, lane, kind)[b])
  {
    var init := work[..|work| - 1];
    if b < |Queue(init, lane, kind)| {
      QueueHeadOfLine(init, lane, kind, a, b);
    } else {
      var i := QueueMember(init, lane, kind, a);
      assert SameQueue(work[i], work[|work| - 1]);
    }
  }

  /** How many rows at the front of a queue are done or skipped. */
  function ResolvedPrefix(q: seq<Row>): (n: nat)
    ensures n <= |q|
    ensures forall k :: 0 <= k < n ==> Resolved(q[k])
    ensures n < |q| ==> !Resolved(q[n])
  {
    if q == [] || !Resolved(q[0]) then 0 else 1 + ResolvedPrefix(q[1..])
  }

  /**
   A reachable lane and kind is numbered 1..n and is a resolved prefix, at most one unresolved row
   that has been worked on, then an untouched ready tail.
   */
  lemma LaneShape(policy: Policy, calls: seq<Call>, lane: LaneKey, kind: WorkKind)
    ensures var q := Queue(Reached(policy, calls).work, lane, kind);
      var head := ResolvedPrefix(q);
      && (forall k :: 0 <= k < |q| ==> q[k].sequence == k + 1)
      && (forall k :: 0 <= k < head ==> Resolved(q[k]))
      && (head < |q| ==> !Resolved(q[head]))
      && (forall k :: head < k < |q| ==> Untouched(q[k]))
  {
    ReachedKeeps(policy, calls);
    var work := Reached(policy, calls).work;
    assert Numbered(work) && HeadOfLine(work);
    hide Reached, TableInv, HeadOfLine, Numbered, MaxSequence, Queue, ResolvedPrefix, Untouched, Resolved;
    QueueNumbered(work, lane, kind);
    var q := Queue(work, lane, kind);
    forall k | ResolvedPrefix(q) < k < |q| ensures Untouched(q[k]) {
      QueueHeadOfLine(work, lane, kind, ResolvedPrefix(q), k);
    }
  }

  /** No operation un-resolves a row, renumbers it or moves it to another lane. */
  lemma ResolvedAbsorbs(policy: Policy, before: Db, after: Db, id: nat)
    requires Follows(policy, before, after) && id < |before.work| && Resolved(before.work[id])
    ensures id < |after.work| && Resolved(after.work[id]) && SameIdentity(before.work[id], after.work[id])
  {
    hide Reached;
    var calls, n: nat :| n <= |calls| && before == Reached(policy, calls[..n]) && after == Reached(policy, calls);
    ReachedEvolves(policy, calls, n);
    assert Successor(before.work[id], after.work[id]);
  }

  /** Two states of one history, the second not before the first. */
  ghost predicate Follows(policy: Policy, before: Db, after: Db) {
    exists calls: seq<Call>, n: nat ::
      n <= |calls| && before == Reached(policy, calls[..n]) && after == Reached(policy, calls)
  }

  // ---- Fencing ----------------------------------------------------------------------------------

  /** The row has left the claimed state at this generation, or moved past it. */
  predicate Dead(db: Db, t: Token) {
    && t.id < |db.work|
    && t.generation <= db.work[t.id].generation
    && !Live(db, t)
  }

  lemma DeadForever(policy: Policy, calls: seq<Call>, n: nat, t: Token)
    requires n <= |calls| && Dead(Reached(policy, calls[..n]), t)
    ensures Dead(Reached(policy, calls), t)
  {
    ReachedEvolves(policy, calls, n);
    assert Successor(Reached(policy, calls[..n]).work[t.id], Reached(policy, calls).work[t.id]);
  }

  /** A dead token can no longer mark, settle, release or start anything. */
  lemma DeadIsPowerless(policy: Policy, calls: seq<Call>, n: nat, t: Token, op: Op, now: Time)
    requires n <= |calls| && Dead(Reached(policy, calls[..n]), t)
    requires op == OpMarkSending(t) || (op.OpSettle? && op.token == t) || op == OpRelease(t)
          || (op.OpStartCommand? && op.token == t)
    ensures Apply(policy, Reached(policy, calls), Call(op, now)) == Reached(policy, calls)
  {
    DeadForever(policy, calls, n, t);
  }

  /** Settling or releasing with a live token kills it, so a token settles at most once. */
  lemma SettlingKills(policy: Policy, db: Db, t: Token, outcome: Outcome, now: Time)
    requires TableInv(db) && Live(db, t)
    ensures Dead(Settle(policy, db, t, outcome, now), t)
    ensures Dead(Release(db, t, now), t)
  {
    hide TableInv, CompleteCommand, Backoff, Evolves;
    if RejectsPending(policy, db, t.id, outcome) {
      CompleteKills(db, t.id, Rejected, false, now);
    }
  }

  lemma CompleteKills(db: Db, id: nat, result: CommandResult, agentControlled: bool, now: Time)
    requires TableInv(db) && id < |db.work|
    ensures var after := CompleteCommand(db, id, result, agentControlled, now);
      && id < |after.work| && after.work[id].state == Done && db.work[id].generation < after.work[id].generation
  {
    LaneIsBound(db, id);
    hide TableInv, FindSource, MaxSequence;
  }

  lemma LaneIsBound(db: Db, id: nat)
    requires TableInv(db) && id < |db.work|
    ensures db.work[id].lane in db.lanes
  {
    hide Numbered, UniqueSources, HeadOfLine, GoodCommands;
  }

  lemma SettlesAtMostOnce(policy: Policy, calls: seq<Call>, i: nat, j: nat, t: Token)
    requires i < j < |calls|
    requires calls[i].op.OpSettle? && calls[i].op.token == t && calls[j].op.OpSettle? && calls[j].op.token == t
    requires Live(Reached(policy, calls[..i]), t)
    ensures Apply(policy, Reached(policy, calls[..j]), calls[j]) == Reached(policy, calls[..j])
  {
    var before := Reached(policy, calls[..i]);
    ReachedKeeps(policy, calls[..i]);
    SettlingKills(policy, before, t, calls[i].op.outcome, calls[i].now);
    assert calls[..i + 1][..i] == calls[..i];
    assert calls[..j][..i + 1] == calls[..i + 1];
    assert Apply(policy, before, calls[i]) == Settle(policy, before, t, calls[i].op.outcome, calls[i].now) by {
      SettleCall(policy, before, calls[i]);
    }
    assert Reached(policy, calls[..i + 1]) == Apply(policy, before, calls[i]);
    hide Reached, Apply, Settle, Dead, TableInv, Live;
    DeadIsPowerless(policy, calls[..j], i + 1, t, calls[j].op, calls[j].now);
  }

  lemma SettleCall(policy: Policy, db: Db, call: Call)
    requires call.op.OpSettle?
    ensures Apply(policy, db, call) == Settle(policy, db, call.op.token, call.op.outcome, call.now)
  {
    hide Settle;
  }

  /** The claim made by this call, if it made one. */
  predicate Claims(policy: Policy, calls: seq<Call>, n: nat, t: Token)
    requires n < |calls|
  {
    var db := Reached(policy, calls[..n]);
    && calls[n].op.OpClaim?
    && calls[n].op.id == t.id
    && Claimable(db.work, calls[n].op.kind, calls[n].now, t.id)
    && t.generation == db.work[t.id].generation + 1
  }

  /** No two claims in a history share an (id, generation) pair. */
  lemma ClaimsAreDistinct(policy: Policy, calls: seq<Call>, i: nat, j: nat, s: Token, t: Token)
    requires i < j < |calls| && Claims(policy, calls, i, s) && Claims(policy, calls, j, t)
    ensures s != t
    ensures s.id == t.id ==> s.generation < t.generation
  {
    assert calls[..i + 1][..i] == calls[..i];
    assert calls[..j][..i + 1] == calls[..i + 1];
    ReachedEvolves(policy, calls[..j], i + 1);
    if s.id == t.id {
      assert Successor(Reached(policy, calls[..i + 1]).work[s.id], Reached(policy, calls[..j]).work[s.id]);
    }
  }
}
