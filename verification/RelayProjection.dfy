/** Paged, crash-replayed catch-up over a growing log refines the one-pass fold. */
module RelayProjection {
  import opened Identities
  import opened WorkTable
  import opened WorkInvariants
  import opened CoordinatorInvariants
  import opened RowMoves
  import opened AgentEvents
  import opened Relay
  import opened RelayInvariants
  import opened RelayDelivery
  import opened RelayIntake
  import opened ProjectionFold

  // ---- Where the projector stands ---------------------------------------------------------------

  /** The durable cursor never runs ahead of what was processed, nor that ahead of the log. */
  predicate GoodFeed(db: Db, lane: LaneKey, log: seq<Event>, projector: Projector, frontier: nat) {
    && CursorOf(db, lane) <= frontier <= |log|
    && (projector.Page? ==>
          && lane in db.lanes
          && projector.offset == CursorOf(db, lane)
          && projector.done <= projector.size
          && projector.offset + projector.size <= |log|
          && projector.offset + projector.done <= frontier)
  }

  ghost predicate FeedInv(w: World) {
    forall lane :: GoodFeed(w.db, lane, LogOf(w, lane), ProjectorOf(w, lane), FrontierOf(w, lane))
  }

  lemma LogsGrow(policy: Policy, w: World, step: Step, now: Time, lane: LaneKey)
    requires Enabled(w, step, now)
    ensures |LogOf(w, lane)| <= |LogOf(Taken(policy, w, step, now), lane)|
    ensures step.SyncEvent? || step.SyncFetch? || step.SyncCommit? || step.SyncAbort? || step.SyncPark? ==>
      LogOf(Taken(policy, w, step, now), lane) == LogOf(w, lane)
  {
    hide InLog, Claimable, DbAfter;
  }

  lemma CursorMoves(policy: Policy, w: World, step: Step, now: Time, lane: LaneKey)
    requires WorldInv(w) && Enabled(w, step, now)
    ensures CursorOf(DbAfter(policy, w, step, now), lane) ==
      if step == SyncCommit(lane) then Position(w, lane) else CursorOf(w.db, lane)
    ensures lane in w.db.lanes ==> lane in DbAfter(policy, w, step, now).lanes
  {
    hide WorldInv, CoordinatorInv, Evolves, DbAfter, Enabled, CursorOf, CallOf, Explained;
    StepDb(policy, w, step, now);
    NoCallNoChange(policy, w, step, now);
    CursorCall(w, step, now, lane);
    if CallOf(w, step, now).Some? {
      ExplainedCursor(w.db, Call(CallOf(w, step, now).value, now), DbAfter(policy, w, step, now), lane);
    }
  }

  lemma ExplainedCursor(db: Db, call: Call, after: Db, lane: LaneKey)
    requires Explained(db, call, after)
    ensures CursorOf(after, lane) ==
      if call.op.OpSetCursor? && call.op.lane == lane then call.op.next else CursorOf(db, lane)
    ensures lane in db.lanes ==> lane in after.lanes
  {
    hide CursorOf;
  }

  lemma CursorCall(w: World, step: Step, now: Time, lane: LaneKey)
    requires Enabled(w, step, now)
    ensures step == SyncCommit(lane) <==>
      CallOf(w, step, now).Some? && CallOf(w, step, now).value.OpSetCursor? && CallOf(w, step, now).value.lane == lane
    ensures step == SyncCommit(lane) ==> CallOf(w, step, now).value.next == Position(w, lane)
  {
    hide Projects, Claimable, InLog;
  }

  lemma GoodFeedStays(policy: Policy, w: World, step: Step, now: Time, lane: LaneKey)
    requires WorldInv(w) && Enabled(w, step, now)
    requires GoodFeed(w.db, lane, LogOf(w, lane), ProjectorOf(w, lane), FrontierOf(w, lane))
    ensures var after := Taken(policy, w, step, now);
      GoodFeed(after.db, lane, LogOf(after, lane), ProjectorOf(after, lane), FrontierOf(after, lane))
  {
    hide WorldInv, DbAfter, CursorOf, Taken, Enabled, LogOf, ProjectorOf, FrontierOf, Position;
    CursorMoves(policy, w, step, now, lane);
    LogsGrow(policy, w, step, now, lane);
    FeedMoves(policy, w, step, now, lane);
  }

  lemma FeedParts(policy: Policy, w: World, step: Step, now: Time)
    requires Enabled(w, step, now)
    ensures var after := Taken(policy, w, step, now);
      && after.db == DbAfter(policy, w, step, now)
      && after.projectors == NextProjectors(w, step, now)
      && after.frontier == NextFrontier(w, step, now)
  {
    hide Enabled, DbAfter, NextDispatchers, NextIntakeWorkers, NextOperations, NextProjectors, NextLogs, NextFrontier,
      NextAppends;
  }

  /** How one lane's projector comes out of a step. */
  predicate FeedStep(w: World, step: Step, lane: LaneKey, before: Projector, next: Projector) {
    if step == SyncEvent(lane) then before.Page? && before.done < before.size &&
      next == before.(done := before.done + 1)
    else if step == SyncCommit(lane) then before.Page? && before.done == before.size && next.Off?
    else
      || next == before || next.Off?
      || (lane in w.db.lanes && next.Page? && next.offset == CursorOf(w.db, lane) && next.done == 0
          && CursorOf(w.db, lane) + next.size <= |LogOf(w, lane)|)
  }

  lemma ProjectorMoves(w: World, step: Step, now: Time, lane: LaneKey)
    requires Enabled(w, step, now)
    ensures var projectors := NextProjectors(w, step, now);
      FeedStep(w, step, lane, ProjectorOf(w, lane), if lane in projectors then projectors[lane] else Off)
  {
    hide InLog, Claimable, Parked, CursorOf, LogOf;
  }

  lemma FrontierMoves(w: World, step: Step, now: Time, lane: LaneKey)
    requires Enabled(w, step, now)
    ensures var frontier := NextFrontier(w, step, now);
      (if lane in frontier then frontier[lane] else 0) ==
        (if step == SyncEvent(lane) && FrontierOf(w, lane) <= Position(w, lane) then Position(w, lane) + 1
          else FrontierOf(w, lane))
  {
    hide Enabled, Position;
  }

  /** What a step does to where one lane's projector stands. */
  lemma FeedMoves(policy: Policy, w: World, step: Step, now: Time, lane: LaneKey)
    requires Enabled(w, step, now)
    ensures var after := Taken(policy, w, step, now);
      && after.db == DbAfter(policy, w, step, now)
      && FrontierOf(after, lane) == (if step == SyncEvent(lane) && FrontierOf(w, lane) <= Position(w, lane)
                                     then Position(w, lane) + 1 else FrontierOf(w, lane))
      && FeedStep(w, step, lane, ProjectorOf(w, lane), ProjectorOf(after, lane))
      && (ProjectorOf(w, lane).Page? ==> Position(w, lane) == ProjectorOf(w, lane).offset + ProjectorOf(w, lane).done)
  {
    hide Enabled, DbAfter, NextProjectors, NextFrontier, Taken, FeedStep;
    FeedParts(policy, w, step, now);
    ProjectorMoves(w, step, now, lane);
    FrontierMoves(w, step, now, lane);
  }

  lemma FeedInvKeeps(policy: Policy, w: World, at: Occurrence)
    requires WorldInv(w) && FeedInv(w)
    ensures FeedInv(Next(policy, w, at))
  {
    var after := Next(policy, w, at);
    if Enabled(w, at.step, at.now) {
      forall lane ensures GoodFeed(after.db, lane, LogOf(after, lane), ProjectorOf(after, lane),
        FrontierOf(after, lane)) {
        assert GoodFeed(w.db, lane, LogOf(w, lane), ProjectorOf(w, lane), FrontierOf(w, lane));
        hide WorldInv, GoodFeed, FeedInv, Enabled;
        GoodFeedStays(policy, w, at.step, at.now, lane);
      }
      hide WorldInv, GoodFeed, Enabled, Next;
    }
  }

  // ---- Refinement -------------------------------------------------------------------------------

  /** While none of a lane's projected deliveries has been skipped, its outbox is the fold. */
  predicate LaneRefines(db: Db, lane: LaneKey, log: seq<Event>, frontier: nat) {
    NoneSkipped(db.work, lane) ==> Refines(db.work, lane, log, frontier)
  }

  ghost predicate RefineInv(w: World) {
    forall lane :: LaneRefines(w.db, lane, LogOf(w, lane), FrontierOf(w, lane))
  }

  /** Skips are for ever, so if none is skipped now none ever was. */
  lemma NoneSkippedBefore(db: Db, call: Call, after: Db, lane: LaneKey)
    requires CoordinatorInv(db) && Explained(db, call, after) && Evolves(db, after)
    requires NoneSkipped(after.work, lane)
    ensures NoneSkipped(db.work, lane)
  {
    forall i | 0 <= i < |db.work| && IsProjection(db.work[i], lane) ensures db.work[i].state != Skipped {
      assert Successor(db.work[i], after.work[i]) && Caused(db, call, i, db.work[i], after.work[i]);
      assert GoodSource(db.work[i], db.commands) && GoodCommands(db);
      assert after.work[i].state != Skipped;
    }
  }

  /** The calls of other steps queue no projected delivery of this lane. */
  lemma OutboxUnmoved(db: Db, call: Call, after: Db, lane: LaneKey)
    requires Explained(db, call, after) && Evolves(db, after)
    requires call.op.OpInsertDelivery? ==> call.op.source.EventKey? && call.op.source.lane != lane
    ensures Projected(after.work, lane) == Projected(db.work, lane)
  {
    forall i | |db.work| <= i < |after.work| ensures !IsProjection(after.work[i], lane) {
      assert Appended(call, after.work[i]);
    }
    forall i | 0 <= i < |db.work| ensures SameIdentity(db.work[i], after.work[i]) {
      assert Successor(db.work[i], after.work[i]);
    }
    hide Explained, Evolves;
    ProjectedSame(db.work, after.work, lane);
  }

  lemma FoldStays(policy: Policy, w: World, step: Step, now: Time, lane: LaneKey, n: nat)
    requires Enabled(w, step, now) && n <= |LogOf(w, lane)|
    ensures n <= |LogOf(Taken(policy, w, step, now), lane)|
    ensures Fold(LogOf(Taken(policy, w, step, now), lane), n) == Fold(LogOf(w, lane), n)
  {
    var before, after := LogOf(w, lane), LogOf(Taken(policy, w, step, now), lane);
    hide Fold, InLog, Claimable, DbAfter, NextDispatchers, NextIntakeWorkers, NextProjectors, NextOperations;
    if after != before {
      assert |after| == |before| + 1;
      var e := after[|before|];
      assert after == before + [e];
      FoldPrefix(before, e, n);
    }
  }

  /** Any step that is not a SyncEvent of this lane. */
  lemma QuietRefines(policy: Policy, w: World, step: Step, now: Time, lane: LaneKey)
    requires WorldInv(w) && Enabled(w, step, now) && step != SyncEvent(lane)
    requires FrontierOf(w, lane) <= |LogOf(w, lane)|
    requires LaneRefines(w.db, lane, LogOf(w, lane), FrontierOf(w, lane))
    ensures LaneRefines(DbAfter(policy, w, step, now), lane, LogOf(Taken(policy, w, step, now), lane),
      FrontierOf(w, lane))
  {
    var after := DbAfter(policy, w, step, now);
    FoldStays(policy, w, step, now, lane, FrontierOf(w, lane));
    StepDb(policy, w, step, now);
    hide Fold, DispatcherTokens, IntakeTokens, DbAfter, Enabled, FrontierOf, Taken, LogOf;
    if NoneSkipped(after.work, lane) {
      if CallOf(w, step, now).Some? {
        var call := Call(CallOf(w, step, now).value, now);
        NoneSkippedBefore(w.db, call, after, lane);
        OtherInsert(w, step, now, lane);
        OutboxUnmoved(w.db, call, after, lane);
      } else {
        NoCallNoChange(policy, w, step, now);
      }
      hide NoneSkipped, Explained, Evolves, Projected, CoordinatorInv, CallOf;
    }
  }

  lemma OtherInsert(w: World, step: Step, now: Time, lane: LaneKey)
    requires Enabled(w, step, now) && step != SyncEvent(lane) && CallOf(w, step, now).Some?
    ensures CallOf(w, step, now).value.OpInsertDelivery? ==>
      CallOf(w, step, now).value.source.EventKey? && CallOf(w, step, now).value.source.lane != lane
  {
    hide Enabled, Projects, Deliverable;
  }

  lemma SyncEventDb(policy: Policy, w: World, lane: LaneKey, now: Time)
    requires Enabled(w, SyncEvent(lane), now)
    ensures Position(w, lane) < |LogOf(w, lane)|
    ensures DbAfter(policy, w, SyncEvent(lane), now) == Synced(w.db, lane, LogOf(w, lane), Position(w, lane), now)
    ensures Taken(policy, w, SyncEvent(lane), now).db == DbAfter(policy, w, SyncEvent(lane), now)
    ensures LogOf(Taken(policy, w, SyncEvent(lane), now), lane) == LogOf(w, lane)
    ensures FrontierOf(Taken(policy, w, SyncEvent(lane), now), lane) ==
      if Position(w, lane) < FrontierOf(w, lane) then FrontierOf(w, lane) else Position(w, lane) + 1
  {
    hide Projects, InsertWork, Deliverable;
  }

  lemma SyncEventRefines(policy: Policy, w: World, lane: LaneKey, now: Time)
    requires WorldInv(w) && Enabled(w, SyncEvent(lane), now) && UniqueIds(LogOf(w, lane))
    requires GoodFeed(w.db, lane, LogOf(w, lane), ProjectorOf(w, lane), FrontierOf(w, lane))
    requires LaneRefines(w.db, lane, LogOf(w, lane), FrontierOf(w, lane))
    ensures var after := Taken(policy, w, SyncEvent(lane), now);
      LaneRefines(after.db, lane, LogOf(after, lane), FrontierOf(after, lane))
  {
    hide WorldInv, CoordinatorInv, DbAfter, Enabled, FrontierOf, Taken, LogOf, Position, GoodFeed, Synced, UniqueIds,
      NoneSkipped, Explained, Evolves, CallOf, Refines, UniqueSources, GoodRows;
    SyncEventDb(policy, w, lane, now);
    StepDb(policy, w, SyncEvent(lane), now);
    PageIsBehind(w, lane, now);
    WorldFacts(w);
    var after := DbAfter(policy, w, SyncEvent(lane), now);
    if NoneSkipped(after.work, lane) {
      NoCallNoChange(policy, w, SyncEvent(lane), now);
      if CallOf(w, SyncEvent(lane), now).Some? {
        NoneSkippedBefore(w.db, Call(CallOf(w, SyncEvent(lane), now).value, now), after, lane);
      }
      SyncedIsFold(w.db, lane, LogOf(w, lane), FrontierOf(w, lane), Position(w, lane), now);
    }
  }

  lemma PageIsBehind(w: World, lane: LaneKey, now: Time)
    requires Enabled(w, SyncEvent(lane), now)
    requires GoodFeed(w.db, lane, LogOf(w, lane), ProjectorOf(w, lane), FrontierOf(w, lane))
    ensures lane in w.db.lanes && Position(w, lane) <= FrontierOf(w, lane)
  {
  }

  lemma WorldFacts(w: World)
    requires WorldInv(w)
    ensures CoordinatorInv(w.db) && UniqueSources(w.db.work) && GoodRows(w.db.work, w.db.commands)
  {
    hide DispatcherTokens, IntakeTokens, UniqueSources, GoodRows;
  }

  lemma LaneRefinesKeeps(policy: Policy, w: World, step: Step, now: Time, lane: LaneKey)
    requires WorldInv(w) && Enabled(w, step, now) && UniqueIds(LogOf(w, lane))
    requires GoodFeed(w.db, lane, LogOf(w, lane), ProjectorOf(w, lane), FrontierOf(w, lane))
    requires LaneRefines(w.db, lane, LogOf(w, lane), FrontierOf(w, lane))
    ensures var after := Taken(policy, w, step, now);
      LaneRefines(after.db, lane, LogOf(after, lane), FrontierOf(after, lane))
  {
    if step == SyncEvent(lane) {
      SyncEventRefines(policy, w, lane, now);
      hide *;
    } else {
      QuietRefines(policy, w, step, now, lane);
      hide WorldInv, Enabled, LaneRefines, DbAfter, LogOf, UniqueIds;
    }
  }

  ghost predicate ProjectionInv(w: World) {
    WorldInv(w) && IntakeInv(w) && FeedInv(w) && RefineInv(w)
  }

  lemma RefineInvKeeps(policy: Policy, w: World, at: Occurrence)
    requires ProjectionInv(w)
    ensures RefineInv(Next(policy, w, at))
  {
    var after := Next(policy, w, at);
    if Enabled(w, at.step, at.now) {
      hide WorldInv, Enabled, LaneRefines, GoodFeed, IntakeRows, GoodAppends, UniqueIds, DoneIsLogged, DoneInOrder;
      forall lane ensures LaneRefines(after.db, lane, LogOf(after, lane), FrontierOf(after, lane)) {
        assert LaneInv(w.db, lane, LogOf(w, lane));
        assert GoodFeed(w.db, lane, LogOf(w, lane), ProjectorOf(w, lane), FrontierOf(w, lane));
        assert LaneRefines(w.db, lane, LogOf(w, lane), FrontierOf(w, lane));
        hide LogOf, ProjectorOf, FrontierOf;
        LaneRefinesKeeps(policy, w, at.step, at.now, lane);
      }
    }
    hide WorldInv, IntakeInv, FeedInv, Taken, Enabled;
  }

  lemma {:induction false} RunProjectionInv(policy: Policy, dispatchers: nat, intakeWorkers: nat,
                                            steps: seq<Occurrence>)
    ensures ProjectionInv(Run(policy, Initial(dispatchers, intakeWorkers), steps))
  {
    RunKeeps(policy, dispatchers, intakeWorkers, steps);
    RunIntakeInv(policy, dispatchers, intakeWorkers, steps);
    if steps == [] {
      hide WorldInv, IntakeInv;
    } else {
      var prefix := steps[..|steps| - 1];
      var before := Run(policy, Initial(dispatchers, intakeWorkers), prefix);
      RunProjectionInv(policy, dispatchers, intakeWorkers, prefix);
      RefineInvKeeps(policy, before, steps[|steps| - 1]);
      hide WorldInv, IntakeInv, RefineInv, Next, FeedInv;
      FeedInvKeeps(policy, before, steps[|steps| - 1]);
    }
  }

  /**
   For every page size and every pattern of crashes, fetch errors, restarts and log growth: as long
   as no projected delivery of the lane has been skipped, its outbox is exactly the one-pass fold of
   the events processed so far, in the fold's order; a caught-up lane holds the fold of its whole log.
   */
  lemma ProjectionRefinesFold(policy: Policy, w: World, lane: LaneKey)
    requires Reachable(policy, w) && NoneSkipped(w.db.work, lane)
    ensures var log := LogOf(w, lane);
      && CursorOf(w.db, lane) <= FrontierOf(w, lane) <= |log|
      && Projected(w.db.work, lane) == Fold(log, FrontierOf(w, lane))
      && (CursorOf(w.db, lane) == |log| ==> Projected(w.db.work, lane) == Fold(log, |log|))
  {
    hide Run, WorldInv, IntakeInv, Fold, Projected;
    var dispatchers, intakeWorkers, steps :| w == Run(policy, Initial(dispatchers, intakeWorkers), steps);
    RunProjectionInv(policy, dispatchers, intakeWorkers, steps);
    assert GoodFeed(w.db, lane, LogOf(w, lane), ProjectorOf(w, lane), FrontierOf(w, lane));
    assert LaneRefines(w.db, lane, LogOf(w, lane), FrontierOf(w, lane));
  }
}
