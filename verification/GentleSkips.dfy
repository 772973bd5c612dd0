/**
 Skips that are safe for the order of a lane. An operator's skip of a delivery can turn an echo that was
 dropped into a reply still to be queued; if it turns none that the projector may yet replay, nothing is
 ever overtaken.
 */
module GentleSkips {
  import opened Identities
  import opened WorkTable
  import opened WorkInvariants
  import opened CoordinatorInvariants
  import opened RowMoves
  import opened AgentEvents
  import opened Relay
  import opened RelayInvariants
  import opened RelayDelivery
  import opened RelayIntake
  import opened ProjectionFold
  import opened RelayProjection
  import opened ReplayOrder
  import opened RelayOrder

  /** Projected rows come from processed events. */
  predicate SeenFeed(work: seq<Row>, lane: LaneKey, log: seq<Event>, frontier: nat) {
    forall i :: 0 <= i < |work| && IsProjection(work[i], lane) ==> SeenEvent(work, lane, log, i, frontier)
  }

  predicate SeenEvent(work: seq<Row>, lane: LaneKey, log: seq<Event>, i: nat, frontier: nat) {
    exists p :: 0 <= p < |log| && p < frontier && DeliversEvent(work, lane, log, i, p)
  }

  /** What a replay from the cursor would queue is queued already. */
  predicate Decided(work: seq<Row>, lane: LaneKey, log: seq<Event>, cursor: nat, frontier: nat) {
    forall t :: cursor <= t < frontier && t < |log| && Projects(work, log, lane, t) ==> HasRow(work, lane, log[t])
  }

  predicate SafeFeed(db: Db, lane: LaneKey, log: seq<Event>, frontier: nat) {
    SeenFeed(db.work, lane, log, frontier) && Decided(db.work, lane, log, CursorOf(db, lane), frontier)
  }

  /**
   The operator's skip changes no decision the projector may still replay. It can be checked before
   the skip, and holds in particular when nothing is processed beyond the lane's durable cursor.
   */
  predicate GentleSkip(w: World, id: nat, lane: LaneKey) {
    var log := LogOf(w, lane);
    forall t :: CursorOf(w.db, lane) <= t < FrontierOf(w, lane) && t < |log| ==>
      (Projects(Skip(w.db, id).work, log, lane, t) ==> Projects(w.db.work, log, lane, t))
  }

  predicate GentleStep(w: World, step: Step, lane: LaneKey) {
    step.SkipWork? ==> GentleSkip(w, step.id, lane)
  }

  predicate GentleRun(policy: Policy, start: World, steps: seq<Occurrence>, lane: LaneKey) {
    forall n :: 0 <= n < |steps| ==> GentleStep(Run(policy, start, steps[..n]), steps[n].step, lane)
  }

  // ---- Decisions only turn towards echo ---------------------------------------------------------

  lemma QueuedStays(db: Db, call: Call, after: Db, lane: LaneKey, event: EventId, text: string)
    requires CoordinatorInv(after) && Explained(db, call, after) && Evolves(db, after) && !call.op.OpSkip?
    requires Queued(db.work, lane, event, text)
    ensures Queued(after.work, lane, event, text)
  {
    var i := FindSource(db.work, Delivery, EventKey(event, lane)).value;
    assert Successor(db.work[i], after.work[i]) && Caused(db, call, i, db.work[i], after.work[i]);
    assert UniqueSources(after.work) && GoodRows(after.work, after.commands);
    FoundIs(after, i);
    hide CoordinatorInv, Explained, Evolves, FindSource, DeliveryText;
  }

  lemma ProjectsStays(db: Db, call: Call, after: Db, lane: LaneKey, log: seq<Event>, t: nat)
    requires CoordinatorInv(after) && Explained(db, call, after) && Evolves(db, after) && !call.op.OpSkip?
    requires t < |log| && Projects(after.work, log, lane, t)
    ensures Projects(db.work, log, lane, t)
  {
    hide CoordinatorInv, Explained, Evolves, Queued, Deliverable, TerminalText, SendText, TurnBoundary;
    var text := Trim(Deliverable(log[t]).value);
    if IsEcho(db.work, log, lane, t, text) {
      var s :| 0 <= s < t && EchoSource(db.work, log, lane, s, text) && forall m :: s < m < t ==> !TurnBoundary(log[m]);
      QueuedStays(db, call, after, lane, log[s].id, text);
      assert EchoSource(after.work, log, lane, s, text);
      assert IsEcho(after.work, log, lane, t, text);
    }
  }

  lemma HasRowStaysOn(a: Db, b: Db, lane: LaneKey, e: Event)
    requires Evolves(a, b) && HasRow(a.work, lane, e)
    ensures HasRow(b.work, lane, e)
  {
    var i := FindSource(a.work, Delivery, EventKey(e.id, lane)).value;
    assert Successor(a.work[i], b.work[i]);
    FindSourceComplete(b.work, Delivery, EventKey(e.id, lane), i);
  }

  /** The projector's test looks no further than the event it tests. */
  lemma ProjectsPrefix(work: seq<Row>, lane: LaneKey, log: seq<Event>, e: Event, t: nat)
    requires t < |log|
    ensures Projects(work, log + [e], lane, t) == Projects(work, log, lane, t)
  {
    hide Queued, Deliverable, TerminalText, SendText, TurnBoundary;
    var longer := log + [e];
    var text := if Deliverable(log[t]).Some? then Trim(Deliverable(log[t]).value) else "";
    if IsEcho(work, log, lane, t, text) {
      var s :| 0 <= s < t && EchoSource(work, log, lane, s, text) && forall m :: s < m < t ==> !TurnBoundary(log[m]);
      assert EchoSource(work, longer, lane, s, text);
    }
    if IsEcho(work, longer, lane, t, text) {
      var s :| 0 <= s < t && EchoSource(work, longer, lane, s, text) &&
        forall m :: s < m < t ==> !TurnBoundary(longer[m]);
      assert EchoSource(work, log, lane, s, text);
      assert forall m :: s < m < t ==> longer[m] == log[m];
    }
  }

  // ---- Each clause through a store call ---------------------------------------------------------

  lemma SeenFeedStays(a: Db, b: Db, lane: LaneKey, log: seq<Event>, frontier: nat)
    requires Evolves(a, b) && SeenFeed(a.work, lane, log, frontier)
    requires forall i :: |a.work| <= i < |b.work| ==> !IsProjection(b.work[i], lane)
    ensures SeenFeed(b.work, lane, log, frontier)
  {
    forall i | 0 <= i < |b.work| && IsProjection(b.work[i], lane) ensures SeenEvent(b.work, lane, log, i, frontier) {
      assert Successor(a.work[i], b.work[i]);
      assert SeenEvent(a.work, lane, log, i, frontier);
      var p :| 0 <= p < |log| && p < frontier && DeliversEvent(a.work, lane, log, i, p);
      assert DeliversEvent(b.work, lane, log, i, p);
    }
    hide SeenEvent, Evolves;
  }

  lemma DecidedStays(db: Db, call: Call, after: Db, lane: LaneKey, log: seq<Event>, frontier: nat)
    requires CoordinatorInv(after) && Explained(db, call, after) && Evolves(db, after)
    requires Decided(db.work, lane, log, CursorOf(db, lane), frontier)
    requires CursorOf(db, lane) <= CursorOf(after, lane)
    requires call.op.OpSkip? ==>
      forall t :: CursorOf(db, lane) <= t < frontier && t < |log| ==>
        (Projects(after.work, log, lane, t) ==> Projects(db.work, log, lane, t))
    ensures Decided(after.work, lane, log, CursorOf(after, lane), frontier)
  {
    hide CoordinatorInv, Explained, Evolves, Projects, HasRow, CursorOf;
    forall t | CursorOf(after, lane) <= t < frontier && t < |log| && Projects(after.work, log, lane, t)
      ensures HasRow(after.work, lane, log[t])
    {
      if !call.op.OpSkip? {
        ProjectsStays(db, call, after, lane, log, t);
      }
      HasRowStaysOn(db, after, lane, log[t]);
    }
  }

  // ---- Steps ------------------------------------------------------------------------------------

  /** The lane's log and frontier as they are; every step but a SyncEvent of this lane. */
  lemma QuietIsSafe(policy: Policy, w: World, step: Step, now: Time, lane: LaneKey)
    requires WorldInv(w) && Enabled(w, step, now) && step != SyncEvent(lane) && GentleStep(w, step, lane)
    requires GoodFeed(w.db, lane, LogOf(w, lane), ProjectorOf(w, lane), FrontierOf(w, lane))
    requires SafeFeed(w.db, lane, LogOf(w, lane), FrontierOf(w, lane))
    ensures SafeFeed(DbAfter(policy, w, step, now), lane, LogOf(w, lane), FrontierOf(w, lane))
  {
    var after := DbAfter(policy, w, step, now);
    StepDb(policy, w, step, now);
    if CallOf(w, step, now).Some? {
      var call := Call(CallOf(w, step, now).value, now);
      OtherInsert(w, step, now, lane);
      CursorMoves(policy, w, step, now, lane);
      CursorAdvances(policy, w, step, now, lane);
      SkipIsGentle(policy, w, step, now, lane);
      hide WorldInv, Enabled, DbAfter, CallOf, SeenFeed, Decided, GoodFeed, CoordinatorInv, Evolves, LogOf, FrontierOf,
           GentleStep, CursorOf, Position;
      NoNewProjection(w.db, call, after, lane);
      SeenFeedStays(w.db, after, lane, LogOf(w, lane), FrontierOf(w, lane));
      hide Explained;
      DecidedStays(w.db, call, after, lane, LogOf(w, lane), FrontierOf(w, lane));
    } else {
      NoCallNoChange(policy, w, step, now);
      hide *;
    }
  }

  lemma CursorAdvances(policy: Policy, w: World, step: Step, now: Time, lane: LaneKey)
    requires WorldInv(w) && Enabled(w, step, now)
    requires GoodFeed(w.db, lane, LogOf(w, lane), ProjectorOf(w, lane), FrontierOf(w, lane))
    ensures CursorOf(w.db, lane) <= CursorOf(DbAfter(policy, w, step, now), lane)
  {
    CursorMoves(policy, w, step, now, lane);
    hide WorldInv, DbAfter, CursorOf, FrontierOf, LogOf;
  }

  lemma SkipIsGentle(policy: Policy, w: World, step: Step, now: Time, lane: LaneKey)
    requires Enabled(w, step, now) && GentleStep(w, step, lane) && CallOf(w, step, now).Some?
    ensures CallOf(w, step, now).value.OpSkip? ==>
      forall t :: CursorOf(w.db, lane) <= t < FrontierOf(w, lane) && t < |LogOf(w, lane)| ==>
        (Projects(DbAfter(policy, w, step, now).work, LogOf(w, lane), lane, t) ==>
          Projects(w.db.work, LogOf(w, lane), lane, t))
  {
    if CallOf(w, step, now).value.OpSkip? {
      SkipCall(policy, w, step, now);
    }
    hide Enabled, CallOf, DbAfter, Projects, Skip, CursorOf, FrontierOf, LogOf;
  }

  lemma SkipCall(policy: Policy, w: World, step: Step, now: Time)
    requires Enabled(w, step, now) && CallOf(w, step, now).Some? && CallOf(w, step, now).value.OpSkip?
    ensures step.SkipWork? && DbAfter(policy, w, step, now) == Skip(w.db, step.id)
  {
    hide Skip, Projects;
  }

  /** A growing log. */
  lemma LongerLogIsSafe(db: Db, lane: LaneKey, log: seq<Event>, e: Event, frontier: nat)
    requires frontier <= |log| && SafeFeed(db, lane, log, frontier)
    ensures SafeFeed(db, lane, log + [e], frontier)
  {
    var longer := log + [e];
    forall i | 0 <= i < |db.work| && IsProjection(db.work[i], lane)
      ensures SeenEvent(db.work, lane, longer, i, frontier)
    {
      assert SeenEvent(db.work, lane, log, i, frontier);
      var p :| 0 <= p < |log| && p < frontier && DeliversEvent(db.work, lane, log, i, p);
      assert longer[p] == log[p];
      assert DeliversEvent(db.work, lane, longer, i, p);
      hide Decided;
    }
    forall t | CursorOf(db, lane) <= t < frontier && t < |longer| && Projects(db.work, longer, lane, t)
      ensures HasRow(db.work, lane, longer[t])
    {
      ProjectsPrefix(db.work, lane, log, e, t);
      assert longer[t] == log[t];
      hide Projects, HasRow, CursorOf;
    }
    hide SeenEvent, Projects, HasRow, CursorOf;
  }

  /** Processing an event: nothing new below the frontier, the next event in order at it. */
  lemma SyncedIsSafe(db: Db, lane: LaneKey, log: seq<Event>, cursor: nat, frontier: nat, t: nat, now: Time)
    requires Replayable(db, lane, log) && cursor <= t <= frontier && t < |log|
    requires SeenFeed(db.work, lane, log, frontier) && Decided(db.work, lane, log, cursor, frontier)
    ensures SeenFeed(Synced(db, lane, log, t, now).work, lane, log, if t < frontier then frontier else t + 1)
    ensures Decided(Synced(db, lane, log, t, now).work, lane, log, cursor, if t < frontier then frontier else t + 1)
  {
    SyncedIs(db, lane, log, t, now);
    hide Projects, HasRow, Synced;
    if t == frontier {
      hide Replayable;
      if Projects(db.work, log, lane, t) && !HasRow(db.work, lane, log[t]) {
        AppendAtFrontier(db, lane, log, cursor, frontier, now);
      } else {
        FrontierPassed(db, lane, log, cursor, frontier);
      }
    }
  }

  lemma FrontierPassed(db: Db, lane: LaneKey, log: seq<Event>, cursor: nat, frontier: nat)
    requires frontier < |log| && SeenFeed(db.work, lane, log, frontier)
    requires Decided(db.work, lane, log, cursor, frontier)
    requires Projects(db.work, log, lane, frontier) ==> HasRow(db.work, lane, log[frontier])
    ensures SeenFeed(db.work, lane, log, frontier + 1) && Decided(db.work, lane, log, cursor, frontier + 1)
  {
    hide Projects, HasRow;
    forall i | 0 <= i < |db.work| && IsProjection(db.work[i], lane)
      ensures SeenEvent(db.work, lane, log, i, frontier + 1) {
      assert SeenEvent(db.work, lane, log, i, frontier);
      var p :| 0 <= p < |log| && p < frontier && DeliversEvent(db.work, lane, log, i, p);
      assert DeliversEvent(db.work, lane, log, i, p);
    }
  }

  lemma AppendAtFrontier(db: Db, lane: LaneKey, log: seq<Event>, cursor: nat, frontier: nat, now: Time)
    requires Replayable(db, lane, log) && frontier < |log|
    requires SeenFeed(db.work, lane, log, frontier) && Decided(db.work, lane, log, cursor, frontier)
    requires Projects(db.work, log, lane, frontier) && !HasRow(db.work, lane, log[frontier])
    ensures var work := db.work + [DeliveryRow(db, lane, log, frontier, now)];
      SeenFeed(work, lane, log, frontier + 1) && Decided(work, lane, log, cursor, frontier + 1)
  {
    var r := DeliveryRow(db, lane, log, frontier, now);
    var after := db.(work := db.work + [r]);
    assert IsProjection(r, lane) && r.source.event == log[frontier].id;
    hide DeliveryRow, Projects, HasRow, Synced, SeenEvent, Replayable, DeliversEvent;
    SyncedIs(db, lane, log, frontier, now);
    SyncedIsReplayable(db, lane, log, frontier, now);
    AppendSeen(db.work, lane, log, frontier, r);
    forall t | cursor <= t < frontier + 1 && t < |log| && Projects(after.work, log, lane, t)
      ensures HasRow(after.work, lane, log[t])
    {
      if t < frontier {
        SourcesOf(after, lane, log);
        ProjectsShrinks(db, lane, log, r, t);
        HasRowStays(db, lane, log[t], r);
      } else {
        RowIsFound(after, lane, log, frontier, |db.work|);
      }
    }
  }

  lemma SourcesOf(db: Db, lane: LaneKey, log: seq<Event>)
    requires Replayable(db, lane, log)
    ensures UniqueSources(db.work) && GoodRows(db.work, db.commands)
  {
    hide UniqueSources, GoodRows;
  }

  lemma RowIsFound(db: Db, lane: LaneKey, log: seq<Event>, t: nat, i: nat)
    requires Replayable(db, lane, log) && t < |log| && i < |db.work|
    requires IsProjection(db.work[i], lane) && db.work[i].source.event == log[t].id
    ensures HasRow(db.work, lane, log[t])
  {
    assert DeliversEvent(db.work, lane, log, i, t);
    hide Replayable, HasRow, DeliversEvent;
    HasRowMeans(db, lane, log, t);
  }

  lemma AppendSeen(work: seq<Row>, lane: LaneKey, log: seq<Event>, frontier: nat, r: Row)
    requires frontier < |log| && IsProjection(r, lane) && r.source.event == log[frontier].id
    requires forall i :: 0 <= i < |work| && IsProjection(work[i], lane) ==> SeenEvent(work, lane, log, i, frontier)
    ensures forall i :: 0 <= i < |work + [r]| && IsProjection((work + [r])[i], lane) ==>
      SeenEvent(work + [r], lane, log, i, frontier + 1)
  {
    var after := work + [r];
    forall i | 0 <= i < |after| && IsProjection(after[i], lane) ensures SeenEvent(after, lane, log, i, frontier + 1) {
      if i < |work| {
        assert SeenEvent(work, lane, log, i, frontier);
        var p :| 0 <= p < |log| && p < frontier && DeliversEvent(work, lane, log, i, p);
        assert DeliversEvent(after, lane, log, i, p);
      } else {
        assert DeliversEvent(after, lane, log, i, frontier);
      }
    }
  }

  lemma SeenOnce(work: seq<Row>, lane: LaneKey, log: seq<Event>, i: nat, p: nat, frontier: nat)
    requires UniqueIds(log) && SeenFeed(work, lane, log, frontier) && DeliversEvent(work, lane, log, i, p)
    ensures p < frontier
  {
    assert SeenEvent(work, lane, log, i, frontier);
  }

  lemma StepIsSafe(policy: Policy, w: World, step: Step, now: Time, lane: LaneKey)
    requires ProjectionInv(w) && Enabled(w, step, now) && GentleStep(w, step, lane)
    requires IntakeInv(Taken(policy, w, step, now))
    requires SafeFeed(w.db, lane, LogOf(w, lane), FrontierOf(w, lane))
    ensures var after := Taken(policy, w, step, now);
      SafeFeed(after.db, lane, LogOf(after, lane), FrontierOf(after, lane))
  {
    assert GoodFeed(w.db, lane, LogOf(w, lane), ProjectorOf(w, lane), FrontierOf(w, lane));
    assert LaneInv(w.db, lane, LogOf(w, lane));
    assert LaneInv(Taken(policy, w, step, now).db, lane, LogOf(Taken(policy, w, step, now), lane));
    hide ProjectionInv, IntakeInv, DoneIsLogged, DoneInOrder, Enabled, GentleStep, SafeFeed, DbAfter, GoodFeed;
    if step == SyncEvent(lane) {
      assert WorldInv(w) by { WorldOf(w); }
      hide Taken;
      SyncEventIsSafe(policy, w, lane, now);
    } else {
      assert WorldInv(w) by { WorldOf(w); }
      QuietIsSafe(policy, w, step, now, lane);
      GrownLog(policy, w, step, now, lane);
    }
  }

  lemma GrownLog(policy: Policy, w: World, step: Step, now: Time, lane: LaneKey)
    requires Enabled(w, step, now) && step != SyncEvent(lane) && FrontierOf(w, lane) <= |LogOf(w, lane)|
    requires SafeFeed(DbAfter(policy, w, step, now), lane, LogOf(w, lane), FrontierOf(w, lane))
    ensures var after := Taken(policy, w, step, now);
      SafeFeed(after.db, lane, LogOf(after, lane), FrontierOf(after, lane))
  {
    var before, after := LogOf(w, lane), LogOf(Taken(policy, w, step, now), lane);
    LogGrowsByOne(policy, w, step, now, lane);
    FeedMoves(policy, w, step, now, lane);
    hide SafeFeed, DbAfter, Taken, Enabled, FeedStep, LogOf, FrontierOf, ProjectorOf, Position;
    if after != before {
      LongerLogIsSafe(DbAfter(policy, w, step, now), lane, before, after[|before|], FrontierOf(w, lane));
    }
  }

  lemma SyncEventIsSafe(policy: Policy, w: World, lane: LaneKey, now: Time)
    requires WorldInv(w) && Enabled(w, SyncEvent(lane), now) && UniqueIds(LogOf(w, lane))
    requires GoodFeed(w.db, lane, LogOf(w, lane), ProjectorOf(w, lane), FrontierOf(w, lane))
    requires SafeFeed(w.db, lane, LogOf(w, lane), FrontierOf(w, lane))
    ensures var after := Taken(policy, w, SyncEvent(lane), now);
      SafeFeed(after.db, lane, LogOf(after, lane), FrontierOf(after, lane))
  {
    var log, n, t := LogOf(w, lane), FrontierOf(w, lane), Position(w, lane);
    SyncEventDb(policy, w, lane, now);
    CursorMoves(policy, w, SyncEvent(lane), now, lane);
    assert CursorOf(w.db, lane) <= t <= n && lane in w.db.lanes by { hide WorldInv, SafeFeed, CursorOf; }
    FeedReplayable(w.db, lane, log, n);
    hide WorldInv, Enabled, GoodFeed, DbAfter, Taken, LogOf, FrontierOf, Position, CursorOf, SeenFeed, Decided,
      Replayable, Synced;
    SyncedIsSafe(w.db, lane, log, CursorOf(w.db, lane), n, t, now);
  }

  lemma FeedReplayable(db: Db, lane: LaneKey, log: seq<Event>, frontier: nat)
    requires CoordinatorInv(db) && UniqueIds(log) && lane in db.lanes && SeenFeed(db.work, lane, log, frontier)
    ensures Replayable(db, lane, log)
  {
    assert UniqueSources(db.work) && GoodRows(db.work, db.commands);
    hide CoordinatorInv, UniqueSources, GoodRows, UniqueIds;
    forall i | 0 <= i < |db.work| && IsProjection(db.work[i], lane)
      ensures exists p :: 0 <= p < |log| && DeliversEvent(db.work, lane, log, i, p)
    {
      assert SeenEvent(db.work, lane, log, i, frontier);
    }
  }

  // ---- Runs -------------------------------------------------------------------------------------

  lemma {:induction false} RunIsSafe(policy: Policy, dispatchers: nat, intakeWorkers: nat, steps: seq<Occurrence>,
                                     lane: LaneKey)
    requires GentleRun(policy, Initial(dispatchers, intakeWorkers), steps, lane)
    ensures var w := Run(policy, Initial(dispatchers, intakeWorkers), steps);
      SafeFeed(w.db, lane, LogOf(w, lane), FrontierOf(w, lane))
  {
    if steps != [] {
      var last := |steps| - 1;
      var prefix, at := steps[..last], steps[last];
      GentlePrefix(policy, Initial(dispatchers, intakeWorkers), steps, lane);
      hide GentleRun, SafeFeed, Next, GentleStep;
      RunIsSafe(policy, dispatchers, intakeWorkers, prefix, lane);
      RunProjectionInv(policy, dispatchers, intakeWorkers, prefix);
      RunIntakeInv(policy, dispatchers, intakeWorkers, steps);
      NextIsSafe(policy, Run(policy, Initial(dispatchers, intakeWorkers), prefix), at, lane);
      hide ProjectionInv, IntakeInv;
    }
  }

  lemma NextIsSafe(policy: Policy, w: World, at: Occurrence, lane: LaneKey)
    requires ProjectionInv(w) && GentleStep(w, at.step, lane) && IntakeInv(Next(policy, w, at))
    requires SafeFeed(w.db, lane, LogOf(w, lane), FrontierOf(w, lane))
    ensures var after := Next(policy, w, at);
      SafeFeed(after.db, lane, LogOf(after, lane), FrontierOf(after, lane))
  {
    hide ProjectionInv, GentleStep, IntakeInv, SafeFeed, Enabled, Taken, LogOf, FrontierOf;
    if Enabled(w, at.step, at.now) {
      StepIsSafe(policy, w, at.step, at.now, lane);
    }
  }

  lemma GentlePrefix(policy: Policy, start: World, steps: seq<Occurrence>, lane: LaneKey)
    requires steps != [] && GentleRun(policy, start, steps, lane)
    ensures GentleRun(policy, start, steps[..|steps| - 1], lane)
    ensures GentleStep(Run(policy, start, steps[..|steps| - 1]), steps[|steps| - 1].step, lane)
  {
    var prefix := steps[..|steps| - 1];
    hide Run, GentleStep;
    forall n | 0 <= n < |prefix| ensures GentleStep(Run(policy, start, prefix[..n]), prefix[n].step, lane) {
      assert prefix[..n] == steps[..n];
    }
  }

  // ---- Nothing is overtaken ---------------------------------------------------------------------

  lemma NotOvertaken(db: Db, lane: LaneKey, log: seq<Event>, cursor: nat, frontier: nat, t: nat)
    requires UniqueIds(log) && SeenFeed(db.work, lane, log, frontier) && Decided(db.work, lane, log, cursor, frontier)
    requires cursor <= t <= frontier && t < |log|
    ensures !Overtaken(db.work, lane, log, t)
  {
    hide Projects, HasRow, UniqueIds, SeenFeed;
    if Overtaken(db.work, lane, log, t) {
      var i, p :| 0 <= i < |db.work| && t < p < |log| && DeliversEvent(db.work, lane, log, i, p);
      SeenOnce(db.work, lane, log, i, p, frontier);
    }
  }

  lemma SafeStepOvertakesNothing(w: World, at: Occurrence, lane: LaneKey)
    requires ProjectionInv(w) && SafeFeed(w.db, lane, LogOf(w, lane), FrontierOf(w, lane))
    ensures !ProcessesOvertaken(w, at, lane)
  {
    hide Overtaken, UniqueIds, SeenFeed, Decided, LogOf, ProjectionInv, FrontierOf, CursorOf;
    if ProcessesOvertaken(w, at, lane) {
      PositionIsBehind(w, at, lane);
      NotOvertaken(w.db, lane, LogOf(w, lane), CursorOf(w.db, lane), FrontierOf(w, lane), Position(w, lane));
    }
  }

  lemma PositionIsBehind(w: World, at: Occurrence, lane: LaneKey)
    requires ProjectionInv(w) && ProcessesEvent(w, at, lane)
    ensures CursorOf(w.db, lane) <= Position(w, lane) <= FrontierOf(w, lane) && UniqueIds(LogOf(w, lane))
  {
    assert GoodFeed(w.db, lane, LogOf(w, lane), ProjectorOf(w, lane), FrontierOf(w, lane));
    hide WorldInv, IntakeInv, FeedInv, RefineInv, UniqueIds, CursorOf, LogOf, FrontierOf;
    UniqueLog(w, lane);
  }

  /**
   In a run whose operator skips change no decision still open to replay, no step processes an overtaken
   event of the lane, so its outbox and its marks follow the log.
   */
  lemma GentleRunsOvertakeNothing(policy: Policy, dispatchers: nat, intakeWorkers: nat, steps: seq<Occurrence>,
                                  lane: LaneKey)
    requires GentleRun(policy, Initial(dispatchers, intakeWorkers), steps, lane)
    ensures NeverOvertaken(policy, Initial(dispatchers, intakeWorkers), steps, lane)
  {
    var start := Initial(dispatchers, intakeWorkers);
    hide Run, GentleStep, Initial, ProjectionInv, SafeFeed, ProcessesOvertaken;
    forall n | 0 <= n < |steps| ensures !ProcessesOvertaken(Run(policy, start, steps[..n]), steps[n], lane) {
      var prefix := steps[..n];
      forall m | 0 <= m < n ensures GentleStep(Run(policy, start, prefix[..m]), prefix[m].step, lane) {
        assert prefix[..m] == steps[..m];
      }
      RunIsSafe(policy, dispatchers, intakeWorkers, prefix, lane);
      RunProjectionInv(policy, dispatchers, intakeWorkers, prefix);
      SafeStepOvertakesNothing(Run(policy, start, prefix), steps[n], lane);
    }
  }
}
