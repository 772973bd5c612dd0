/** Intake into an idempotent log: once per message, done means logged, and in lane order. */
module RelayIntake {
  import opened Identities
  import opened WorkTable
  import opened WorkInvariants
  import opened CoordinatorInvariants
  import opened RowMoves
  import opened AgentEvents
  import opened Relay
  import opened RelayInvariants
  import opened RelayDelivery

  // ---- The invariant ----------------------------------------------------------------------------

  /** An intake row's key and event id are built from its lane's account and its source message. */
  predicate GoodIntakeRow(db: Db, r: Row) {
    r.kind == Intake ==>
      && r.source.MessageKey?
      && r.lane in db.lanes
      && db.lanes[r.lane] == Lane(r.source.platform, r.source.account)
      && r.agentEvent == Inbound(r.source.platform, r.source.source)
  }

  predicate IntakeRows(db: Db) {
    forall i :: 0 <= i < |db.work| ==> GoodIntakeRow(db, db.work[i])
  }

  /** Only a claimed message row, never a command, asks for an append. */
  predicate Appendable(db: Db, id: nat) {
    id < |db.work| && db.work[id].kind == Intake && db.work[id].generation > 0 && id !in db.commands
  }

  predicate GoodAppends(w: World) {
    forall id :: id in w.pendingAppends ==> Appendable(w.db, id)
  }

  /** Every inbound event of a lane's log belongs to a message row of that lane. */
  predicate HasOwner(db: Db, lane: LaneKey, event: EventId) {
    exists i :: 0 <= i < |db.work| && db.work[i].lane == lane && db.work[i].agentEvent == event && Appendable(db, i)
  }

  predicate OwnedLog(db: Db, lane: LaneKey, log: seq<Event>) {
    && UniqueIds(log)
    && (forall p :: 0 <= p < |log| && log[p].id.Inbound? ==> HasOwner(db, lane, log[p].id))
  }

  /** A message row that is done, as opposed to a completed command. */
  predicate DoneMessage(db: Db, i: nat) {
    i < |db.work| && db.work[i].kind == Intake && db.work[i].state == Done && i !in db.commands
  }

  predicate DoneIsLogged(db: Db, lane: LaneKey, log: seq<Event>) {
    forall i :: 0 <= i < |db.work| && DoneMessage(db, i) && db.work[i].lane == lane ==>
      InLog(log, db.work[i].agentEvent)
  }

  /** A done row's event precedes the events of all later rows of its lane. */
  predicate DoneInOrder(db: Db, lane: LaneKey, log: seq<Event>) {
    forall i, j ::
      0 <= i < j < |db.work| && DoneMessage(db, i) && db.work[i].lane == lane && SameQueue(db.work[i], db.work[j])
      ==> Precedes(log, db.work[i].agentEvent, db.work[j].agentEvent)
  }

  predicate LaneInv(db: Db, lane: LaneKey, log: seq<Event>) {
    OwnedLog(db, lane, log) && DoneIsLogged(db, lane, log) && DoneInOrder(db, lane, log)
  }

  ghost predicate IntakeInv(w: World) {
    IntakeRows(w.db) && GoodAppends(w) && forall lane :: LaneInv(w.db, lane, LogOf(w, lane))
  }

  // ---- Identity ---------------------------------------------------------------------------------

  /** Within a lane an event id names one message row. */
  lemma EventNamesRow(db: Db, i: nat, j: nat)
    requires TableInv(db) && IntakeRows(db) && i < |db.work| && j < |db.work|
    requires db.work[i].kind == Intake && SameQueue(db.work[i], db.work[j])
    requires db.work[i].agentEvent == db.work[j].agentEvent
    ensures i == j
  {
    assert GoodIntakeRow(db, db.work[i]) && GoodIntakeRow(db, db.work[j]);
    assert UniqueSources(db.work);
  }

  /** A message in the log has been claimed, so everything before it in its lane is resolved. */
  lemma LoggedIsTouched(db: Db, j: nat, log: seq<Event>)
    requires TableInv(db) && IntakeRows(db) && j < |db.work| && db.work[j].kind == Intake
    requires OwnedLog(db, db.work[j].lane, log) && InLog(log, db.work[j].agentEvent)
    ensures Appendable(db, j) && Cleared(db.work, j)
  {
    var lane := db.work[j].lane;
    assert GoodIntakeRow(db, db.work[j]);
    var p :| 0 <= p < |log| && log[p].id == db.work[j].agentEvent;
    assert HasOwner(db, lane, log[p].id);
    var i :| 0 <= i < |db.work| && db.work[i].lane == lane && db.work[i].agentEvent == db.work[j].agentEvent &&
             Appendable(db, i);
    hide TableInv, IntakeRows, OwnedLog, HasOwner, GoodIntakeRow;
    EventNamesRow(db, i, j);
    TouchedIsCleared(db, j);
  }

  lemma TouchedIsCleared(db: Db, j: nat)
    requires TableInv(db) && j < |db.work| && db.work[j].generation > 0
    ensures Cleared(db.work, j)
  {
    assert HeadOfLine(db.work);
    hide TableInv;
  }

  // ---- The parts that follow the rows -----------------------------------------------------------

  lemma AppendableStays(a: Db, b: Db, call: Call, id: nat)
    requires Evolves(a, b) && Explained(a, call, b) && Appendable(a, id)
    ensures Appendable(b, id)
  {
    assert Successor(a.work[id], b.work[id]);
  }

  lemma HasOwnerStays(a: Db, b: Db, call: Call, lane: LaneKey, event: EventId)
    requires Evolves(a, b) && Explained(a, call, b) && HasOwner(a, lane, event)
    ensures HasOwner(b, lane, event)
  {
    var i :| 0 <= i < |a.work| && a.work[i].lane == lane && a.work[i].agentEvent == event && Appendable(a, i);
    AppendableStays(a, b, call, i);
    assert Successor(a.work[i], b.work[i]);
  }

  lemma IntakeRowsStay(policy: Policy, w: World, step: Step, now: Time)
    requires WorldInv(w) && IntakeRows(w.db) && Enabled(w, step, now)
    ensures IntakeRows(DbAfter(policy, w, step, now))
  {
    StepDb(policy, w, step, now);
    var after := DbAfter(policy, w, step, now);
    if CallOf(w, step, now).Some? {
      var call := Call(CallOf(w, step, now).value, now);
      assert step.Accept? ==> call.op.OpAccept? && step.lane in w.db.lanes;
      forall i | 0 <= i < |after.work| ensures GoodIntakeRow(after, after.work[i]) {
        if i < |w.db.work| {
          assert Successor(w.db.work[i], after.work[i]);
          assert GoodIntakeRow(w.db, w.db.work[i]);
        } else {
          assert Appended(call, after.work[i]);
          NewRowKind(policy, w, step, now, i);
        }
        hide WorldInv, DbAfter;
      }
    }
    hide WorldInv, CoordinatorInv, DbAfter, Explained, Evolves, CallOf, Enabled;
  }

  lemma NewRowKind(policy: Policy, w: World, step: Step, now: Time, i: nat)
    requires WorldInv(w) && Enabled(w, step, now) && |w.db.work| <= i < |DbAfter(policy, w, step, now).work|
    ensures DbAfter(policy, w, step, now).work[i].kind == Intake ==>
      step.Accept? && DbAfter(policy, w, step, now).work[i].source.MessageKey?
  {
    hide WorldInv, CoordinatorInv, DbAfter, Explained, Evolves, Enabled, CallOf;
    StepDb(policy, w, step, now);
    NoCallNoChange(policy, w, step, now);
    if CallOf(w, step, now).Some? {
      NewRowCall(w.db, Call(CallOf(w, step, now).value, now), DbAfter(policy, w, step, now), i);
      AcceptCall(w, step, now);
    }
  }

  lemma NewRowCall(db: Db, call: Call, after: Db, i: nat)
    requires Explained(db, call, after) && CoordinatorInv(after) && |db.work| <= i < |after.work|
    ensures after.work[i].kind == Intake ==> call.op.OpAccept? && after.work[i].source.MessageKey?
  {
    assert Appended(call, after.work[i]) && GoodSource(after.work[i], after.commands);
    hide CoordinatorInv;
  }

  lemma AcceptCall(w: World, step: Step, now: Time)
    requires Enabled(w, step, now) && CallOf(w, step, now).Some?
    ensures CallOf(w, step, now).value.OpAccept? ==> step.Accept?
  {
    hide Projects, Claimable, InLog;
  }

  lemma GoodAppendsStay(policy: Policy, w: World, step: Step, now: Time)
    requires WorldInv(w) && GoodAppends(w) && Enabled(w, step, now)
    ensures GoodAppends(Taken(policy, w, step, now))
  {
    StepDb(policy, w, step, now);
    var after := Taken(policy, w, step, now);
    if step.IntakeAppend? {
      assert GoodIntake(w.db, w.intakeWorkers[step.k]);
    }
    forall id | id in after.pendingAppends ensures Appendable(after.db, id) {
      assert Appendable(w.db, id);
      if CallOf(w, step, now).Some? {
        AppendableStays(w.db, after.db, Call(CallOf(w, step, now).value, now), id);
      }
      hide Appendable, Explained, Evolves;
    }
    hide WorldInv, Taken, Appendable, Explained, Evolves;
  }

  // ---- The log, when the rows move --------------------------------------------------------------

  /** A message row becomes done only when its event is already in the log. */
  lemma NewlyDone(policy: Policy, w: World, step: Step, now: Time, i: nat)
    requires WorldInv(w) && Enabled(w, step, now)
    requires DoneMessage(DbAfter(policy, w, step, now), i) && !DoneMessage(w.db, i)
    ensures i < |w.db.work| && w.db.work[i].state == Claimed
    ensures InLog(LogOf(w, w.db.work[i].lane), w.db.work[i].agentEvent)
  {
    hide WorldInv, CoordinatorInv, DbAfter, InLog, Explained, Evolves, Enabled, CallOf;
    StepDb(policy, w, step, now);
    NoCallNoChange(policy, w, step, now);
    var after := DbAfter(policy, w, step, now);
    var call := Call(CallOf(w, step, now).value, now);
    if i >= |w.db.work| {
      AppendedIsReady(w.db, call, after, i);
    } else {
      HasCoordinatorInv(w);
      NewlyDoneCall(w.db, call, after, i);
      SettlingStep(w, step, now);
    }
  }

  lemma HasCoordinatorInv(w: World)
    requires WorldInv(w)
    ensures CoordinatorInv(w.db) && DispatcherTokens(w) && IntakeTokens(w)
  {
  }

  /** Who reports a row as sent: a dispatcher its delivery, or an intake worker a message that is in the log. */
  lemma SettlingStep(w: World, step: Step, now: Time)
    requires WorldInv(w) && Enabled(w, step, now) && CallOf(w, step, now).Some?
    ensures var op := CallOf(w, step, now).value;
      op.OpSettle? && op.outcome.Sent? && op.token.id < |w.db.work| && w.db.work[op.token.id].kind == Intake ==>
        InLog(LogOf(w, w.db.work[op.token.id].lane), w.db.work[op.token.id].agentEvent)
  {
    hide CoordinatorInv, DispatcherTokens, IntakeTokens, Projects, Claimable, InLog;
    if step.DeliverySettle? {
      DispatcherRow(w, step.d);
    }
  }

  lemma NewlyDoneCall(db: Db, call: Call, after: Db, i: nat)
    requires CoordinatorInv(db) && Explained(db, call, after) && Evolves(db, after) && i < |db.work|
    requires DoneMessage(after, i) && !DoneMessage(db, i)
    ensures SettlesAs(db, call, i) && call.op.outcome.Sent? && db.work[i].kind == Intake
  {
    assert Caused(db, call, i, db.work[i], after.work[i]);
    assert Successor(db.work[i], after.work[i]);
    assert GoodSend(db.work[i]);
    hide CoordinatorInv, Evolves;
  }

  lemma OwnedLogStays(policy: Policy, w: World, step: Step, now: Time, lane: LaneKey, log: seq<Event>)
    requires WorldInv(w) && Enabled(w, step, now) && OwnedLog(w.db, lane, log)
    ensures OwnedLog(DbAfter(policy, w, step, now), lane, log)
  {
    StepDb(policy, w, step, now);
    var after := DbAfter(policy, w, step, now);
    if CallOf(w, step, now).Some? {
      forall p | 0 <= p < |log| && log[p].id.Inbound? ensures HasOwner(after, lane, log[p].id) {
        hide WorldInv, Explained, Evolves, HasOwner, DbAfter;
        HasOwnerStays(w.db, after, Call(CallOf(w, step, now).value, now), lane, log[p].id);
      }
    }
    hide WorldInv, Explained, Evolves, HasOwner, Enabled, CallOf, Apply;
  }

  lemma DoneIsLoggedStays(policy: Policy, w: World, step: Step, now: Time, lane: LaneKey)
    requires WorldInv(w) && Enabled(w, step, now) && DoneIsLogged(w.db, lane, LogOf(w, lane))
    ensures DoneIsLogged(DbAfter(policy, w, step, now), lane, LogOf(w, lane))
  {
    StepDb(policy, w, step, now);
    var after := DbAfter(policy, w, step, now);
    hide CoordinatorInv, Explained, DbAfter, WorldInv;
    forall i | 0 <= i < |after.work| && DoneMessage(after, i) && after.work[i].lane == lane
      ensures InLog(LogOf(w, lane), after.work[i].agentEvent)
    {
      if !DoneMessage(w.db, i) {
        NewlyDone(policy, w, step, now, i);
      }
      assert Successor(w.db.work[i], after.work[i]);
      hide InLog, LogOf;
    }
  }

  /** A row that is not in the table yet has no event in the log. */
  lemma FreshIsUnlogged(policy: Policy, w: World, step: Step, now: Time, j: nat, log: seq<Event>)
    requires WorldInv(w) && Enabled(w, step, now) && IntakeRows(w.db)
    requires |w.db.work| <= j < |DbAfter(policy, w, step, now).work| &&
      DbAfter(policy, w, step, now).work[j].kind == Intake
    requires OwnedLog(w.db, DbAfter(policy, w, step, now).work[j].lane, log)
    ensures !InLog(log, DbAfter(policy, w, step, now).work[j].agentEvent)
  {
    var after := DbAfter(policy, w, step, now);
    StepDb(policy, w, step, now);
    IntakeRowsStay(policy, w, step, now);
    OwnedLogStays(policy, w, step, now, after.work[j].lane, log);
    var event := after.work[j].agentEvent;
    hide WorldInv, Explained, DbAfter;
    if InLog(log, event) {
      assert GoodIntakeRow(after, after.work[j]);
      var p :| 0 <= p < |log| && log[p].id == event;
      assert HasOwner(w.db, after.work[j].lane, log[p].id);
      var i :| 0 <= i < |w.db.work| && w.db.work[i].lane == after.work[j].lane && w.db.work[i].agentEvent == event &&
               Appendable(w.db, i);
      assert Successor(w.db.work[i], after.work[i]);
      EventNamesRow(after, i, j);
    }
  }

  lemma DoneInOrderStays(policy: Policy, w: World, step: Step, now: Time, lane: LaneKey)
    requires WorldInv(w) && Enabled(w, step, now) && IntakeRows(w.db) && LaneInv(w.db, lane, LogOf(w, lane))
    ensures DoneInOrder(DbAfter(policy, w, step, now), lane, LogOf(w, lane))
  {
    var after := DbAfter(policy, w, step, now);
    StepDb(policy, w, step, now);
    hide CoordinatorInv, Explained, DbAfter, WorldInv;
    forall i, j | 0 <= i < j < |after.work| && DoneMessage(after, i) && after.work[i].lane == lane &&
      SameQueue(after.work[i], after.work[j])
      ensures Precedes(LogOf(w, lane), after.work[i].agentEvent, after.work[j].agentEvent)
    {
      OrderedPair(policy, w, step, now, lane, i, j);
    }
    hide Precedes, DoneMessage;
  }

  lemma OrderedPair(policy: Policy, w: World, step: Step, now: Time, lane: LaneKey, i: nat, j: nat)
    requires WorldInv(w) && Enabled(w, step, now) && IntakeRows(w.db) && LaneInv(w.db, lane, LogOf(w, lane))
    requires var after := DbAfter(policy, w, step, now);
      i < j < |after.work| && DoneMessage(after, i) && after.work[i].lane == lane &&
        SameQueue(after.work[i], after.work[j])
    ensures Precedes(LogOf(w, lane), DbAfter(policy, w, step, now).work[i].agentEvent,
                     DbAfter(policy, w, step, now).work[j].agentEvent)
  {
    hide Explained, DbAfter, CoordinatorInv, WorldInv, Enabled, LogOf, OwnedLog, DoneIsLogged, Precedes, IntakeRows,
      InLog;
    var after := DbAfter(policy, w, step, now);
    var log := LogOf(w, lane);
    StepDb(policy, w, step, now);
    if j >= |w.db.work| {
      FreshIsUnlogged(policy, w, step, now, j, log);
      UnloggedPrecedes(log, after.work[i].agentEvent, after.work[j].agentEvent);
    } else {
      assert Successor(w.db.work[i], after.work[i]) && Successor(w.db.work[j], after.work[j]);
      if DoneMessage(w.db, i) {
        assert Precedes(log, w.db.work[i].agentEvent, w.db.work[j].agentEvent);
      } else {
        NewlyDone(policy, w, step, now, i);
        UnresolvedHidesLater(w, i, j, log);
        UnloggedPrecedes(log, after.work[i].agentEvent, after.work[j].agentEvent);
      }
    }
  }

  /** Behind an unresolved row no later message of its lane is in the log. */
  lemma UnresolvedHidesLater(w: World, i: nat, j: nat, log: seq<Event>)
    requires WorldInv(w) && IntakeRows(w.db) && i < j < |w.db.work| && SameQueue(w.db.work[i], w.db.work[j])
    requires w.db.work[j].kind == Intake && !Resolved(w.db.work[i]) && OwnedLog(w.db, w.db.work[j].lane, log)
    ensures !InLog(log, w.db.work[j].agentEvent)
  {
    hide Disciplined, DispatcherTokens, IntakeTokens, TableInv, IntakeRows, OwnedLog, InLog;
    if InLog(log, w.db.work[j].agentEvent) {
      LoggedIsTouched(w.db, j, log);
      assert false;
    }
  }

  lemma UnloggedPrecedes(log: seq<Event>, a: EventId, b: EventId)
    requires !InLog(log, b)
    ensures Precedes(log, a, b)
  {
  }

  // ---- The log, when it grows -------------------------------------------------------------------

  /** Appending an event no done row waits for keeps the order: done events are already there. */
  lemma AppendKeepsLane(db: Db, lane: LaneKey, log: seq<Event>, e: Event)
    requires TableInv(db) && IntakeRows(db) && LaneInv(db, lane, log) && !InLog(log, e.id)
    requires e.id.Inbound? ==> HasOwner(db, lane, e.id)
    ensures LaneInv(db, lane, log + [e])
  {
    AppendUniqueIds(log, e);
    var longer := log + [e];
    forall i | 0 <= i < |db.work| && DoneMessage(db, i) && db.work[i].lane == lane
      ensures InLog(longer, db.work[i].agentEvent)
    {
      InLogGrows(log, e, db.work[i].agentEvent);
      hide InLog;
    }
    forall i, j | 0 <= i < j < |db.work| && DoneMessage(db, i) && db.work[i].lane == lane &&
      SameQueue(db.work[i], db.work[j])
      ensures Precedes(longer, db.work[i].agentEvent, db.work[j].agentEvent)
    {
      assert InLog(log, db.work[i].agentEvent) && Precedes(log, db.work[i].agentEvent, db.work[j].agentEvent);
      PrecedesGrows(log, e, db.work[i].agentEvent, db.work[j].agentEvent);
      hide InLog, Precedes;
    }
    hide InLog, Precedes, HasOwner, DoneMessage, TableInv, IntakeRows, UniqueIds;
  }

  lemma PrecedesGrows(log: seq<Event>, e: Event, a: EventId, b: EventId)
    requires Precedes(log, a, b) && a != e.id
    ensures Precedes(log + [e], a, b)
  {
  }

  lemma LaneInvStays(policy: Policy, w: World, step: Step, now: Time, lane: LaneKey)
    requires WorldInv(w) && Enabled(w, step, now) && IntakeInv(w)
    ensures LaneInv(DbAfter(policy, w, step, now), lane, LogOf(Taken(policy, w, step, now), lane))
  {
    if step.AppendLands? || step.AgentEmits? {
      LandingKeepsLane(policy, w, step, now, lane);
      hide *;
    } else {
      assert LaneInv(w.db, lane, LogOf(w, lane));
      hide Enabled, IntakeInv, WorldInv, DbAfter;
      QuietLaneStays(policy, w, step, now, lane);
      hide LaneInv;
    }
  }

  lemma QuietLaneStays(policy: Policy, w: World, step: Step, now: Time, lane: LaneKey)
    requires WorldInv(w) && Enabled(w, step, now) && IntakeRows(w.db) && LaneInv(w.db, lane, LogOf(w, lane))
    ensures LaneInv(DbAfter(policy, w, step, now), lane, LogOf(w, lane))
  {
    OwnedLogStays(policy, w, step, now, lane, LogOf(w, lane));
    DoneIsLoggedStays(policy, w, step, now, lane);
    DoneInOrderStays(policy, w, step, now, lane);
    hide WorldInv, OwnedLog, DoneIsLogged, DoneInOrder, DbAfter, IntakeRows, LogOf, Enabled;
  }

  lemma LandingKeepsLane(policy: Policy, w: World, step: Step, now: Time, lane: LaneKey)
    requires WorldInv(w) && Enabled(w, step, now) && IntakeInv(w) && (step.AppendLands? || step.AgentEmits?)
    ensures LaneInv(w.db, lane, LogOf(Taken(policy, w, step, now), lane))
    ensures DbAfter(policy, w, step, now) == w.db
  {
    var log := LogOf(w, lane);
    assert LaneInv(w.db, lane, log);
    assert IntakeRows(w.db) && CoordinatorInv(w.db) && (step.AppendLands? ==> Appendable(w.db, step.id)) by {
      hide LaneInv, TableInv, Disciplined, DispatcherTokens, IntakeTokens;
    }
    LandedLog(policy, w, step, now, lane);
    hide WorldInv, IntakeInv, CoordinatorInv, LaneInv, IntakeRows, InLog, Enabled, DbAfter, Taken, LogOf, Appendable,
      UserEvent;
    if step.AppendLands? {
      var r := w.db.work[step.id];
      if r.lane == lane && !InLog(log, r.agentEvent) {
        AppendKeepsLane(w.db, lane, log, UserEvent(r));
      }
    } else if step.lane == lane {
      AppendKeepsLane(w.db, lane, log, step.event);
    }
  }

  /** What an append that lands, or an event of the agent's, does to the lane's log. */
  lemma LandedLog(policy: Policy, w: World, step: Step, now: Time, lane: LaneKey)
    requires Enabled(w, step, now) && (step.AppendLands? || step.AgentEmits?)
    ensures DbAfter(policy, w, step, now) == w.db
    ensures step.AppendLands? ==> step.id < |w.db.work|
    ensures step.AgentEmits? && step.lane == lane ==> step.event.id.Agent? && !InLog(LogOf(w, lane), step.event.id)
    ensures var after := LogOf(Taken(policy, w, step, now), lane);
      if step.AppendLands? && w.db.work[step.id].lane == lane then
        after == AppendOnce(LogOf(w, lane), UserEvent(w.db.work[step.id]))
      else if step.AgentEmits? && step.lane == lane then after == LogOf(w, lane) + [step.event]
      else after == LogOf(w, lane)
  {
    hide InLog, Claimable, Apply;
  }

  lemma IntakeInvKeeps(policy: Policy, w: World, at: Occurrence)
    requires WorldInv(w) && IntakeInv(w)
    ensures IntakeInv(Next(policy, w, at))
  {
    if Enabled(w, at.step, at.now) {
      IntakeRowsStay(policy, w, at.step, at.now);
      GoodAppendsStay(policy, w, at.step, at.now);
      var after := Next(policy, w, at);
      forall lane ensures LaneInv(after.db, lane, LogOf(after, lane)) {
        LaneInvStays(policy, w, at.step, at.now, lane);
      }
      hide WorldInv, Taken, IntakeRows, GoodAppends, LaneInv, Enabled;
    }
  }

  lemma {:induction false} RunIntakeInv(policy: Policy, dispatchers: nat, intakeWorkers: nat, steps: seq<Occurrence>)
    ensures IntakeInv(Run(policy, Initial(dispatchers, intakeWorkers), steps))
  {
    if steps != [] {
      var prefix := steps[..|steps| - 1];
      RunIntakeInv(policy, dispatchers, intakeWorkers, prefix);
      RunKeeps(policy, dispatchers, intakeWorkers, prefix);
      IntakeInvKeeps(policy, Run(policy, Initial(dispatchers, intakeWorkers), prefix), steps[|steps| - 1]);
      hide WorldInv, Next, IntakeInv;
    }
  }

  // ---- Theorems ---------------------------------------------------------------------------------

  /**
   Whatever was retried, lost or late: a conversation log holds each accepted message at most once,
   holds every done message, and holds done messages in lane order.
   */
  lemma IntakeReachesTheLog(policy: Policy, w: World, lane: LaneKey)
    requires Reachable(policy, w)
    ensures var log := LogOf(w, lane);
      && (forall p, q :: 0 <= p < q < |log| ==> log[p].id != log[q].id)
      && (forall i :: 0 <= i < |w.db.work| && DoneMessage(w.db, i) && w.db.work[i].lane == lane ==>
            InLog(log, w.db.work[i].agentEvent))
      && (forall i, j ::
            0 <= i < j < |w.db.work| && DoneMessage(w.db, i) && w.db.work[i].lane == lane &&
            SameQueue(w.db.work[i], w.db.work[j])
            ==> Precedes(log, w.db.work[i].agentEvent, w.db.work[j].agentEvent))
  {
    hide Run, InLog, Precedes, DoneMessage, LogOf, IntakeRows, GoodAppends;
    var dispatchers, intakeWorkers, steps :| w == Run(policy, Initial(dispatchers, intakeWorkers), steps);
    RunIntakeInv(policy, dispatchers, intakeWorkers, steps);
    assert LaneInv(w.db, lane, LogOf(w, lane));
  }

  /** Every inbound event in a log is some accepted message of that lane, and of one row only. */
  lemma LoggedMessageHasOneRow(policy: Policy, w: World, lane: LaneKey, p: nat)
    requires Reachable(policy, w) && p < |LogOf(w, lane)| && LogOf(w, lane)[p].id.Inbound?
    ensures exists i ::
      && 0 <= i < |w.db.work|
      && OwnsEvent(w.db, i, lane, LogOf(w, lane)[p].id)
      && forall j :: 0 <= j < |w.db.work| && OwnsEvent(w.db, j, lane, LogOf(w, lane)[p].id) ==> i == j
  {
    hide Run;
    var dispatchers, intakeWorkers, steps :| w == Run(policy, Initial(dispatchers, intakeWorkers), steps);
    RunIntakeInv(policy, dispatchers, intakeWorkers, steps);
    RunKeeps(policy, dispatchers, intakeWorkers, steps);
    var event := LogOf(w, lane)[p].id;
    assert LaneInv(w.db, lane, LogOf(w, lane));
    assert HasOwner(w.db, lane, event);
    var i :| 0 <= i < |w.db.work| && w.db.work[i].lane == lane && w.db.work[i].agentEvent == event &&
      Appendable(w.db, i);
    assert OwnsEvent(w.db, i, lane, event);
    forall j | 0 <= j < |w.db.work| && OwnsEvent(w.db, j, lane, event) ensures i == j {
      EventNamesRow(w.db, i, j);
    }
  }

  /** A message row, claimed at least once, whose user message this event is. */
  predicate OwnsEvent(db: Db, i: nat, lane: LaneKey, event: EventId) {
    Appendable(db, i) && db.work[i].lane == lane && db.work[i].agentEvent == event
  }
}
