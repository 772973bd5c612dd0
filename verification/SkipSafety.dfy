/**
 Exactly which skips endanger the order of a lane. From any reached world some continuation without a
 further skip processes an overtaken event if and only if, as outbox, log and projector stand, a replay
 from the durable cursor would queue an event that is overtaken now or that the page in hand will overtake.
 */
module SkipSafety {
  import opened Identities
  import opened WorkTable
  import opened WorkInvariants
  import opened CoordinatorInvariants
  import opened RowMoves
  import opened AgentEvents
  import opened Relay
  import opened RelayInvariants
  import opened RelayDelivery
  import opened RelayIntake
  import opened ProjectionFold
  import opened RelayProjection
  import opened ReplayOrder
  import opened RelayOrder
  import opened GentleSkips

  // ---- The condition ----------------------------------------------------------------------------

  /** Processing the event now would queue its delivery. */
  predicate Open(work: seq<Row>, lane: LaneKey, log: seq<Event>, t: nat)
    requires t < |log|
  {
    Projects(work, log, lane, t) && !HasRow(work, lane, log[t])
  }

  /** The page in hand is past event u and will queue a delivery before it ends. */
  predicate QueuesPast(work: seq<Row>, lane: LaneKey, log: seq<Event>, projector: Projector, u: nat) {
    projector.Page? &&
    var position := projector.offset + projector.done;
    u < position &&
    exists q :: position <= q < projector.offset + projector.size && q < |log| && Open(work, lane, log, q)
  }

  /** Event u would be queued now, behind a later event's delivery that is queued or is about to be. */
  predicate Doomed(work: seq<Row>, lane: LaneKey, log: seq<Event>, projector: Projector, u: nat)
    requires u < |log|
  {
    || Overtaken(work, lane, log, u)
    || (Open(work, lane, log, u) && QueuesPast(work, lane, log, projector, u))
  }

  /** A replay from the cursor may come upon such an event. */
  predicate Endangers(work: seq<Row>, lane: LaneKey, log: seq<Event>, cursor: nat, projector: Projector) {
    exists u :: cursor <= u < |log| && Doomed(work, lane, log, projector, u)
  }

  predicate Endangered(w: World, lane: LaneKey) {
    Endangers(w.db.work, lane, LogOf(w, lane), CursorOf(w.db, lane), ProjectorOf(w, lane))
  }

  predicate SkipsNothing(steps: seq<Occurrence>) {
    forall k :: 0 <= k < |steps| ==> !steps[k].step.SkipWork?
  }

  /** A continuation without skips whose last step processes an overtaken event of the lane. */
  predicate Leads(policy: Policy, w: World, more: seq<Occurrence>, lane: LaneKey) {
    && more != [] && SkipsNothing(more)
    && ProcessesOvertaken(Run(policy, w, more[..|more| - 1]), more[|more| - 1], lane)
  }

  // ---- What a step leaves open ------------------------------------------------------------------

  lemma OpenIsDeliverable(work: seq<Row>, lane: LaneKey, log: seq<Event>, t: nat)
    requires t < |log| && Open(work, lane, log, t)
    ensures Deliverable(log[t]).Some?
  {
    hide HasRow, IsEcho, Deliverable;
  }

  /** Processing an event opens no event and closes its own. */
  lemma SyncedOpen(db: Db, lane: LaneKey, log: seq<Event>, t: nat, now: Time, u: nat)
    requires Replayable(db, lane, log) && t < |log| && u < |log|
    requires Open(Synced(db, lane, log, t, now).work, lane, log, u)
    ensures Open(db.work, lane, log, u) && u != t
  {
    hide Replayable, Projects, HasRow, Synced, DeliversEvent;
    SyncedIs(db, lane, log, t, now);
    SyncedIsReplayable(db, lane, log, t, now);
    var after := Synced(db, lane, log, t, now);
    if Open(db.work, lane, log, t) {
      OpenIsDeliverable(db.work, lane, log, t);
      var r := DeliveryRow(db, lane, log, t, now);
      SourcesOf(after, lane, log);
      ProjectsShrinks(db, lane, log, r, u);
      if HasRow(db.work, lane, log[u]) {
        HasRowStays(db, lane, log[u], r);
      }
      if u == t {
        RowIsFound(after, lane, log, t, |db.work|);
      }
    }
  }

  /** A delivery of a later event leaves an open event open. */
  lemma OpenUnmoved(work: seq<Row>, r: Row, lane: LaneKey, log: seq<Event>, t: nat, u: nat)
    requires UniqueIds(log) && u < t < |log| && r.source == EventKey(log[t].id, lane)
    ensures Open(work + [r], lane, log, u) <==> Open(work, lane, log, u)
  {
    hide SendText, TurnBoundary, Deliverable, TerminalText, Trim, DeliveryText;
    forall s | 0 <= s <= u
      ensures FindSource(work + [r], Delivery, EventKey(log[s].id, lane)) ==
        FindSource(work, Delivery, EventKey(log[s].id, lane))
    {
      assert (work + [r])[..|work|] == work;
    }
    forall s, text | 0 <= s < u
      ensures EchoSource(work + [r], log, lane, s, text) <==> EchoSource(work, log, lane, s, text)
    {
    }
    hide FindSource;
    var text := if Deliverable(log[u]).Some? then Trim(Deliverable(log[u]).value) else "";
    EchoBySources(work + [r], work, lane, log, u, text);
    EchoBySources(work, work + [r], lane, log, u, text);
  }

  lemma EchoBySources(a: seq<Row>, b: seq<Row>, lane: LaneKey, log: seq<Event>, u: nat, text: string)
    requires u <= |log|
    requires forall s :: 0 <= s < u && EchoSource(a, log, lane, s, text) ==> EchoSource(b, log, lane, s, text)
    ensures IsEcho(a, log, lane, u, text) ==> IsEcho(b, log, lane, u, text)
  {
    hide EchoSource, TurnBoundary;
  }

  // ---- Nothing but a skip endangers a lane ------------------------------------------------------

  lemma SyncedDelivers(db: Db, lane: LaneKey, log: seq<Event>, t: nat, now: Time, i: nat, p: nat)
    requires Replayable(db, lane, log) && t < |log|
    ensures DeliversEvent(Synced(db, lane, log, t, now).work, lane, log, i, p) <==>
      DeliversEvent(db.work, lane, log, i, p) || (Open(db.work, lane, log, t) && i == |db.work| && p == t)
  {
    assert UniqueIds(log) by { hide UniqueIds, FromLog, UniqueSources, GoodRows; }
    hide Replayable, Projects, HasRow, Synced, DeliversEvent;
    SyncedIs(db, lane, log, t, now);
    if Open(db.work, lane, log, t) {
      OpenIsDeliverable(db.work, lane, log, t);
      var r := DeliveryRow(db, lane, log, t, now);
      assert IsProjection(r, lane) && r.source.event == log[t].id;
      OneMoreDelivery(db.work, r, lane, log, t, i, p);
    }
  }

  lemma DoomedBeforeSync(db: Db, lane: LaneKey, log: seq<Event>, page: Projector, now: Time, u: nat)
    requires page.Page? && page.done < page.size && page.offset + page.done < |log| && u < |log|
    requires Replayable(db, lane, log)
    requires var after := Synced(db, lane, log, page.offset + page.done, now);
      Doomed(after.work, lane, log, page.(done := page.done + 1), u)
    ensures Doomed(db.work, lane, log, page, u)
  {
    var t := page.offset + page.done;
    var after := Synced(db, lane, log, t, now);
    hide Replayable, Projects, HasRow, Synced, DeliversEvent;
    assert Open(after.work, lane, log, u);
    SyncedOpen(db, lane, log, t, now, u);
    if Overtaken(after.work, lane, log, u) {
      var i, p :| 0 <= i < |after.work| && u < p < |log| && DeliversEvent(after.work, lane, log, i, p);
      SyncedDelivers(db, lane, log, t, now, i, p);
      if DeliversEvent(db.work, lane, log, i, p) {
        DeliversRow(db.work, lane, log, i, p);
      } else {
        assert QueuesPast(db.work, lane, log, page, u);
      }
    } else {
      var q :| t + 1 <= q < page.offset + page.size && q < |log| && Open(after.work, lane, log, q);
      SyncedOpen(db, lane, log, t, now, q);
      assert QueuesPast(db.work, lane, log, page, u);
    }
  }

  lemma DeliversRow(work: seq<Row>, lane: LaneKey, log: seq<Event>, i: nat, p: nat)
    requires DeliversEvent(work, lane, log, i, p)
    ensures i < |work| && p < |log|
  {
  }

  /** How one lane's view changes in a step that neither skips nor processes an event of it. */
  ghost predicate Quietly(a: seq<Row>, b: seq<Row>, lane: LaneKey, log: seq<Event>, longer: seq<Event>, from: Projector,
                          next: Projector, cursor: nat)
  {
    && |log| <= |longer| <= |log| + 1
    && (forall u :: 0 <= u < |log| && Open(b, lane, longer, u) ==> Open(a, lane, log, u))
    && (forall i: nat, p: nat :: DeliversEvent(b, lane, longer, i, p) ==> DeliversEvent(a, lane, log, i, p))
    && (next.Page? ==> next.offset + next.size <= |log| && next.done <= next.size)
    && (next == from || next.Off? || (next.Page? && next.offset <= cursor && next.done == 0))
  }

  lemma DoomedBeforeQuiet(a: seq<Row>, b: seq<Row>, lane: LaneKey, log: seq<Event>, longer: seq<Event>, from: Projector,
                          next: Projector, cursor: nat, u: nat)
    requires Quietly(a, b, lane, log, longer, from, next, cursor)
    requires cursor <= u < |longer| && Doomed(b, lane, longer, next, u)
    ensures u < |log| && Doomed(a, lane, log, from, u)
  {
    hide Open, DeliversEvent;
    if Overtaken(b, lane, longer, u) {
      var i, p :| 0 <= i < |b| && u < p < |longer| && DeliversEvent(b, lane, longer, i, p);
      assert DeliversEvent(a, lane, log, i, p);
      DeliversRow(a, lane, log, i, p);
      OvertakenIsOpen(b, lane, longer, u);
      assert Open(a, lane, log, u);
      OpenBehind(a, lane, log, u, i, p);
    } else {
      var q :| next.offset + next.done <= q < next.offset + next.size && q < |longer| && Open(b, lane, longer, q);
      assert Open(a, lane, log, q);
      assert QueuesPast(a, lane, log, from, u);
    }
  }

  lemma OvertakenIsOpen(work: seq<Row>, lane: LaneKey, log: seq<Event>, u: nat)
    requires u < |log| && Overtaken(work, lane, log, u)
    ensures Open(work, lane, log, u)
  {
    hide Projects, HasRow, DeliversEvent;
  }

  lemma OpenBehind(work: seq<Row>, lane: LaneKey, log: seq<Event>, u: nat, i: nat, p: nat)
    requires u < p < |log| && Open(work, lane, log, u) && DeliversEvent(work, lane, log, i, p)
    ensures Overtaken(work, lane, log, u)
  {
    DeliversRow(work, lane, log, i, p);
    hide Projects, HasRow, DeliversEvent;
  }

  lemma OpenBefore(policy: Policy, w: World, step: Step, now: Time, lane: LaneKey, u: nat)
    requires WorldInv(w) && Enabled(w, step, now) && !step.SkipWork? && u < |LogOf(w, lane)|
    requires Open(DbAfter(policy, w, step, now).work, lane, LogOf(w, lane), u)
    ensures Open(w.db.work, lane, LogOf(w, lane), u)
  {
    var after := DbAfter(policy, w, step, now);
    StepDb(policy, w, step, now);
    hide WorldInv, Enabled, DbAfter, CallOf, Evolves, Explained, CoordinatorInv, Projects, HasRow, LogOf;
    if CallOf(w, step, now).Some? {
      var call := Call(CallOf(w, step, now).value, now);
      if call.op.OpSkip? {
        SkipCall(policy, w, step, now);
      }
      ProjectsStays(w.db, call, after, lane, LogOf(w, lane), u);
      if HasRow(w.db.work, lane, LogOf(w, lane)[u]) {
        HasRowStaysOn(w.db, after, lane, LogOf(w, lane)[u]);
      }
    } else {
      NoCallNoChange(policy, w, step, now);
    }
  }

  lemma OpenInLonger(work: seq<Row>, lane: LaneKey, log: seq<Event>, e: Event, u: nat)
    requires u < |log|
    ensures Open(work, lane, log + [e], u) <==> Open(work, lane, log, u)
  {
    ProjectsPrefix(work, lane, log, e, u);
    hide Projects, HasRow;
  }

  lemma QuietProjector(policy: Policy, w: World, step: Step, now: Time, lane: LaneKey)
    requires ProjectionInv(w) && Enabled(w, step, now) && step != SyncEvent(lane)
    ensures var from, next := ProjectorOf(w, lane), ProjectorOf(Taken(policy, w, step, now), lane);
      && (next.Page? ==> next.offset + next.size <= |LogOf(w, lane)| && next.done <= next.size)
      && (next == from || next.Off? || (next.Page? && next.offset <= CursorOf(w.db, lane) && next.done == 0))
  {
    assert GoodFeed(w.db, lane, LogOf(w, lane), ProjectorOf(w, lane), FrontierOf(w, lane));
    hide WorldInv, IntakeInv, FeedInv, RefineInv, Enabled, DbAfter, Taken, LogOf, ProjectorOf, FrontierOf, CursorOf,
      Position;
    FeedMoves(policy, w, step, now, lane);
  }

  lemma QuietOpen(policy: Policy, w: World, step: Step, now: Time, lane: LaneKey, u: nat)
    requires ProjectionInv(w) && Enabled(w, step, now) && !step.SkipWork? && u < |LogOf(w, lane)|
    requires var after := Taken(policy, w, step, now);
      u < |LogOf(after, lane)| && Open(after.db.work, lane, LogOf(after, lane), u)
    ensures Open(w.db.work, lane, LogOf(w, lane), u)
  {
    var after := Taken(policy, w, step, now);
    var log, longer := LogOf(w, lane), LogOf(after, lane);
    WorldOf(w);
    LogGrowsByOne(policy, w, step, now, lane);
    hide ProjectionInv, WorldInv, Enabled, Taken, DbAfter, LogOf, Open;
    if longer != log {
      OpenInLonger(after.db.work, lane, log, longer[|log|], u);
    }
    OpenBefore(policy, w, step, now, lane, u);
  }

  lemma QuietIsQuiet(policy: Policy, w: World, step: Step, now: Time, lane: LaneKey)
    requires ProjectionInv(w) && Sourced(w, lane) && Enabled(w, step, now) && step != SyncEvent(lane) && !step.SkipWork?
    requires UniqueIds(LogOf(Taken(policy, w, step, now), lane))
    ensures var after := Taken(policy, w, step, now);
      Quietly(w.db.work, after.db.work, lane, LogOf(w, lane), LogOf(after, lane), ProjectorOf(w, lane),
              ProjectorOf(after, lane), CursorOf(w.db, lane))
  {
    hide ProjectionInv, Sourced, Enabled, Taken, DbAfter, LogOf, ProjectorOf, CursorOf, Open, UniqueIds, DeliversEvent;
    var after := Taken(policy, w, step, now);
    var log, longer := LogOf(w, lane), LogOf(after, lane);
    LogGrowsByOne(policy, w, step, now, lane);
    QuietProjector(policy, w, step, now, lane);
    forall u | 0 <= u < |log| && Open(after.db.work, lane, longer, u) ensures Open(w.db.work, lane, log, u) {
      QuietOpen(policy, w, step, now, lane, u);
    }
    forall i: nat, p: nat | DeliversEvent(after.db.work, lane, longer, i, p)
      ensures DeliversEvent(w.db.work, lane, log, i, p) {
      QuietDelivers(policy, w, step, now, lane, i, p);
    }
  }

  lemma QuietCursor(policy: Policy, w: World, step: Step, now: Time, lane: LaneKey)
    requires ProjectionInv(w) && Enabled(w, step, now)
    ensures CursorOf(w.db, lane) <= CursorOf(Taken(policy, w, step, now).db, lane)
  {
    WorldOf(w);
    assert GoodFeed(w.db, lane, LogOf(w, lane), ProjectorOf(w, lane), FrontierOf(w, lane));
    hide ProjectionInv, WorldInv, Enabled, DbAfter, LogOf, ProjectorOf, FrontierOf, CursorOf, GoodFeed;
    CursorAdvances(policy, w, step, now, lane);
    FeedParts(policy, w, step, now);
  }

  lemma EndangeredBeforeQuiet(policy: Policy, w: World, step: Step, now: Time, lane: LaneKey)
    requires ProjectionInv(w) && Sourced(w, lane) && Enabled(w, step, now) && step != SyncEvent(lane) && !step.SkipWork?
    requires UniqueIds(LogOf(Taken(policy, w, step, now), lane)) && Endangered(Taken(policy, w, step, now), lane)
    ensures Endangered(w, lane)
  {
    var after := Taken(policy, w, step, now);
    hide ProjectionInv, Sourced, Enabled, Taken, UniqueIds, LogOf, ProjectorOf, CursorOf, Doomed, Quietly;
    QuietIsQuiet(policy, w, step, now, lane);
    QuietCursor(policy, w, step, now, lane);
    var u :| CursorOf(after.db, lane) <= u < |LogOf(after, lane)| &&
      Doomed(after.db.work, lane, LogOf(after, lane), ProjectorOf(after, lane), u);
    DoomedBeforeQuiet(w.db.work, after.db.work, lane, LogOf(w, lane), LogOf(after, lane), ProjectorOf(w, lane),
                      ProjectorOf(after, lane), CursorOf(w.db, lane), u);
  }

  /** A page in hand of a world whose outbox delivers events of the log only. */
  predicate Replaying(w: World, lane: LaneKey) {
    var page := ProjectorOf(w, lane);
    && Replayable(w.db, lane, LogOf(w, lane))
    && page.Page? && page.done <= page.size && page.offset + page.size <= |LogOf(w, lane)|
  }

  lemma PageIsReplaying(w: World, lane: LaneKey)
    requires ProjectionInv(w) && Sourced(w, lane) && ProjectorOf(w, lane).Page?
    ensures Replaying(w, lane)
  {
    WorldOf(w);
    WorldFacts(w);
    assert GoodFeed(w.db, lane, LogOf(w, lane), ProjectorOf(w, lane), FrontierOf(w, lane));
    hide ProjectionInv, WorldInv, UniqueSources, GoodRows, FromLog, UniqueIds, LogOf, ProjectorOf, FrontierOf, CursorOf;
  }

  /** What processing one event changes for its lane. */
  lemma SyncStep(policy: Policy, w: World, lane: LaneKey, now: Time)
    requires Replaying(w, lane) && ProjectorOf(w, lane).done < ProjectorOf(w, lane).size
    ensures var page := ProjectorOf(w, lane);
      var t := page.offset + page.done;
      var v := Next(policy, w, At(SyncEvent(lane), now));
      && ProcessesEvent(w, At(SyncEvent(lane), now), lane) && Position(w, lane) == t
      && v.db == Synced(w.db, lane, LogOf(w, lane), t, now)
      && LogOf(v, lane) == LogOf(w, lane)
      && ProjectorOf(v, lane) == page.(done := page.done + 1)
      && Replaying(v, lane) && CursorOf(v.db, lane) == CursorOf(w.db, lane)
  {
    var step, page := SyncEvent(lane), ProjectorOf(w, lane);
    assert Enabled(w, step, now) && Position(w, lane) == page.offset + page.done by {
      hide Replayable, LogOf;
    }
    hide Enabled, DbAfter, LogOf, Position, Replayable, Synced, Taken, ProjectorOf;
    SyncEventDb(policy, w, lane, now);
    FeedMoves(policy, w, step, now, lane);
    SyncedIsReplayable(w.db, lane, LogOf(w, lane), page.offset + page.done, now);
    SyncedCursor(w.db, lane, LogOf(w, lane), page.offset + page.done, now);
  }

  lemma SyncedCursor(db: Db, lane: LaneKey, log: seq<Event>, t: nat, now: Time)
    requires Replayable(db, lane, log) && t < |log|
    ensures CursorOf(Synced(db, lane, log, t, now), lane) == CursorOf(db, lane)
  {
    hide Replayable, Projects, HasRow, Synced;
    SyncedIs(db, lane, log, t, now);
  }

  lemma EndangersBeforeSync(db: Db, lane: LaneKey, log: seq<Event>, cursor: nat, page: Projector, now: Time)
    requires page.Page? && page.done < page.size && page.offset + page.done < |log| && Replayable(db, lane, log)
    requires var after := Synced(db, lane, log, page.offset + page.done, now);
      Endangers(after.work, lane, log, cursor, page.(done := page.done + 1))
    ensures Endangers(db.work, lane, log, cursor, page)
  {
    var after, next := Synced(db, lane, log, page.offset + page.done, now), page.(done := page.done + 1);
    hide Doomed, Replayable, Synced;
    var u :| cursor <= u < |log| && Doomed(after.work, lane, log, next, u);
    DoomedBeforeSync(db, lane, log, page, now, u);
  }

  lemma EndangeredBySight(w: World, lane: LaneKey, db: Db, log: seq<Event>, cursor: nat, projector: Projector)
    requires w.db == db && LogOf(w, lane) == log && CursorOf(db, lane) == cursor && ProjectorOf(w, lane) == projector
    ensures Endangered(w, lane) <==> Endangers(db.work, lane, log, cursor, projector)
  {
    hide LogOf, ProjectorOf, CursorOf, Endangers;
  }

  lemma EndangeredBeforeSync(policy: Policy, w: World, lane: LaneKey, now: Time)
    requires Replaying(w, lane) && ProjectorOf(w, lane).done < ProjectorOf(w, lane).size
    requires Endangered(Next(policy, w, At(SyncEvent(lane), now)), lane)
    ensures Endangered(w, lane)
  {
    hide *;
    ReplayingPage(w, lane);
    var log, cursor, page := LogOf(w, lane), CursorOf(w.db, lane), ProjectorOf(w, lane);
    var v := Next(policy, w, At(SyncEvent(lane), now));
    SyncStep(policy, w, lane, now);
    EndangeredBySight(v, lane, Synced(w.db, lane, log, page.offset + page.done, now), log, cursor,
                      page.(done := page.done + 1));
    EndangeredBySight(w, lane, w.db, log, cursor, page);
    EndangersBeforeSync(w.db, lane, log, cursor, page, now);
  }

  /** Only a skip can endanger a lane. */
  lemma EndangeredBefore(policy: Policy, w: World, at: Occurrence, lane: LaneKey)
    requires ProjectionInv(w) && Sourced(w, lane) && IntakeInv(Next(policy, w, at)) && !at.step.SkipWork?
    requires Endangered(Next(policy, w, at), lane)
    ensures Endangered(w, lane)
  {
    hide ProjectionInv, IntakeInv, Sourced, UniqueIds, LogOf, ProjectorOf, Endangered, Taken, Enabled, Replaying;
    if Enabled(w, at.step, at.now) {
      if at.step == SyncEvent(lane) {
        InPage(w, at, lane);
        PageIsReplaying(w, lane);
        EndangeredBeforeSync(policy, w, lane, at.now);
      } else {
        UniqueLog(Next(policy, w, at), lane);
        EndangeredBeforeQuiet(policy, w, at.step, at.now, lane);
      }
    }
  }

  lemma InPage(w: World, at: Occurrence, lane: LaneKey)
    requires ProcessesEvent(w, at, lane)
    ensures ProjectorOf(w, lane).Page? && ProjectorOf(w, lane).done < ProjectorOf(w, lane).size
  {
    hide LogOf;
  }

  lemma OvertakingIsEndangered(w: World, at: Occurrence, lane: LaneKey)
    requires ProjectionInv(w) && ProcessesOvertaken(w, at, lane)
    ensures Endangered(w, lane)
  {
    hide ProjectionInv, ProcessesEvent, LogOf, ProjectorOf, CursorOf, Position, FrontierOf, Overtaken, UniqueIds;
    PositionIsBehind(w, at, lane);
    assert Doomed(w.db.work, lane, LogOf(w, lane), ProjectorOf(w, lane), Position(w, lane));
  }

  // ---- An endangered lane can be put out of order -------------------------------------------------

  lemma RunMore(policy: Policy, w: World, steps: seq<Occurrence>, at: Occurrence)
    ensures Run(policy, w, steps + [at]) == Next(policy, Run(policy, w, steps), at)
  {
    assert (steps + [at])[..|steps|] == steps;
    hide Next;
  }

  lemma {:induction false} RunAfter(policy: Policy, w: World, first: seq<Occurrence>, more: seq<Occurrence>)
    ensures Run(policy, Run(policy, w, first), more) == Run(policy, w, first + more)
  {
    if more == [] {
      assert first + more == first;
      hide Next;
    } else {
      hide Run, Next;
      var init, at := more[..|more| - 1], more[|more| - 1];
      RunAfter(policy, w, first, init);
      RunMore(policy, Run(policy, w, first), init, at);
      RunMore(policy, w, first + init, at);
      assert more == init + [at] && first + more == (first + init) + [at];
    }
  }

  lemma RunOne(policy: Policy, w: World, at: Occurrence)
    ensures Run(policy, w, [at]) == Next(policy, w, at)
  {
    assert [at][..0] == [];
    hide Next;
  }

  lemma LeadsAfter(policy: Policy, w: World, at: Occurrence, rest: seq<Occurrence>, lane: LaneKey)
    requires !at.step.SkipWork? && Leads(policy, Next(policy, w, at), rest, lane)
    ensures Leads(policy, w, [at] + rest, lane)
  {
    var more := [at] + rest;
    hide Run, Next, ProcessesOvertaken;
    RunOne(policy, w, at);
    RunAfter(policy, w, [at], rest[..|rest| - 1]);
    assert more[..|more| - 1] == [at] + rest[..|rest| - 1] && more[|more| - 1] == rest[|rest| - 1];
  }

  lemma LeadsNow(policy: Policy, w: World, at: Occurrence, lane: LaneKey)
    requires !at.step.SkipWork? && ProcessesOvertaken(w, at, lane)
    ensures Leads(policy, w, [at], lane)
  {
    assert [at][..0] == [];
    hide ProcessesOvertaken;
  }

  /** The first open event up to an overtaken one is overtaken too. */
  lemma OpenIsOvertaken(work: seq<Row>, lane: LaneKey, log: seq<Event>, t: nat, u: nat)
    requires t <= u < |log| && Overtaken(work, lane, log, u) && Open(work, lane, log, t)
    ensures Overtaken(work, lane, log, t)
  {
    hide Projects, HasRow, DeliversEvent;
    var i, p :| 0 <= i < |work| && u < p < |log| && DeliversEvent(work, lane, log, i, p);
    OpenBehind(work, lane, log, t, i, p);
  }

  lemma ClosedIsUnmoved(db: Db, lane: LaneKey, log: seq<Event>, t: nat, now: Time)
    requires Replayable(db, lane, log) && t < |log| && !Open(db.work, lane, log, t)
    ensures Synced(db, lane, log, t, now) == db
  {
    SyncedIs(db, lane, log, t, now);
    hide Replayable, Synced, Projects, HasRow;
  }

  lemma ReplayingPage(w: World, lane: LaneKey)
    requires Replaying(w, lane)
    ensures var page := ProjectorOf(w, lane);
      Replayable(w.db, lane, LogOf(w, lane)) && page.Page? && page.offset + page.size <= |LogOf(w, lane)|
  {
    hide Replayable, LogOf, ProjectorOf;
  }

  /** Processing an event that is not open moves the page on and nothing else. */
  lemma ClosedStep(policy: Policy, w: World, lane: LaneKey)
    requires Replaying(w, lane)
    requires var page := ProjectorOf(w, lane);
      page.done < page.size && page.offset + page.done < |LogOf(w, lane)| &&
      !Open(w.db.work, lane, LogOf(w, lane), page.offset + page.done)
    ensures var v := Next(policy, w, At(SyncEvent(lane), 0));
      var page := ProjectorOf(w, lane);
      && v.db == w.db && LogOf(v, lane) == LogOf(w, lane) && Replaying(v, lane)
      && ProjectorOf(v, lane) == page.(done := page.done + 1)
  {
    hide *;
    ReplayingPage(w, lane);
    var page, log := ProjectorOf(w, lane), LogOf(w, lane);
    SyncStep(policy, w, lane, 0);
    ClosedIsUnmoved(w.db, lane, log, page.offset + page.done, 0);
  }

  /** A page that holds an overtaken event comes upon one. */
  lemma {:induction false} PageFinds(policy: Policy, w: World, lane: LaneKey, u: nat) returns (more: seq<Occurrence>)
    requires Replaying(w, lane) && u < |LogOf(w, lane)|
    requires var page := ProjectorOf(w, lane); page.offset + page.done <= u < page.offset + page.size
    requires Overtaken(w.db.work, lane, LogOf(w, lane), u)
    ensures Leads(policy, w, more, lane)
    decreases |LogOf(w, lane)| - ProjectorOf(w, lane).offset - ProjectorOf(w, lane).done
  {
    hide *;
    ReplayingPage(w, lane);
    var at, page, log := At(SyncEvent(lane), 0), ProjectorOf(w, lane), LogOf(w, lane);
    var t := page.offset + page.done;
    if Open(w.db.work, lane, log, t) {
      OpenIsOvertaken(w.db.work, lane, log, t, u);
      OvertakenNow(policy, w, lane, at);
      LeadsNow(policy, w, at, lane);
      more := [at];
    } else {
      ClosedIsNotOvertaken(w.db.work, lane, log, t);
      ClosedStep(policy, w, lane);
      var rest := PageFinds(policy, Next(policy, w, at), lane, u);
      LeadsAfter(policy, w, at, rest, lane);
      more := [at] + rest;
    }
  }

  lemma OvertakenNow(policy: Policy, w: World, lane: LaneKey, at: Occurrence)
    requires Replaying(w, lane) && at.step == SyncEvent(lane)
    requires var page := ProjectorOf(w, lane);
      page.done < page.size && page.offset + page.done < |LogOf(w, lane)| &&
      Overtaken(w.db.work, lane, LogOf(w, lane), page.offset + page.done)
    ensures ProcessesOvertaken(w, at, lane)
  {
    hide LogOf, ProjectorOf, Replaying, ProcessesEvent, Position, Overtaken, CursorOf, Synced, Next;
    SyncStep(policy, w, lane, at.now);
  }

  lemma ClosedIsNotOvertaken(work: seq<Row>, lane: LaneKey, log: seq<Event>, t: nat)
    requires t < |log| && !Open(work, lane, log, t)
    ensures !Overtaken(work, lane, log, t)
  {
    hide Projects, HasRow, DeliversEvent;
  }

  /** Aborting, un-parking and fetching start over from the cursor. */
  lemma StartOver(policy: Policy, w: World, lane: LaneKey, size: nat)
    requires Replayable(w.db, lane, LogOf(w, lane)) && size > 0 && CursorOf(w.db, lane) + size <= |LogOf(w, lane)|
    ensures var v := Next(policy, Next(policy, Next(policy, w, At(SyncAbort(lane), 0)), At(Unpark(lane), 0)),
                          At(SyncFetch(lane, size), 0));
      && v.db.work == w.db.work && LogOf(v, lane) == LogOf(w, lane)
      && ProjectorOf(v, lane) == Page(CursorOf(w.db, lane), size, 0) && Replaying(v, lane)
  {
    var off := Next(policy, w, At(SyncAbort(lane), 0));
    var free := Next(policy, off, At(Unpark(lane), 0));
    assert lane in w.db.lanes by { hide UniqueIds, UniqueSources, GoodRows, FromLog; }
    hide Next, Replayable, Parked, CursorOf, UnparkCursor;
    Aborted(policy, w, lane);
    Unparked(policy, off, lane);
    Fetched(policy, free, lane, size);
    SameReplayable(w.db, free.db, lane, LogOf(w, lane));
  }

  lemma SameReplayable(a: Db, b: Db, lane: LaneKey, log: seq<Event>)
    requires Replayable(a, lane, log) && b.work == a.work && b.lanes == a.lanes && b.commands == a.commands
    ensures Replayable(b, lane, log)
  {
    hide UniqueIds, UniqueSources, GoodRows, FromLog;
  }

  lemma WorldParts(policy: Policy, w: World, step: Step, now: Time)
    requires Enabled(w, step, now)
    ensures var v := Next(policy, w, At(step, now));
      && v.db == DbAfter(policy, w, step, now)
      && v.logs == NextLogs(w, step, now)
      && v.projectors == NextProjectors(w, step, now)
  {
    hide Enabled, DbAfter, NextDispatchers, NextIntakeWorkers, NextOperations, NextProjectors, NextLogs, NextFrontier,
      NextAppends;
  }

  /** The steps of an operator and of a projector that commit nothing of the page. */
  lemma PlainStep(policy: Policy, w: World, step: Step, now: Time)
    requires step.SkipWork? || step.Unpark? || step.SyncAbort? || step.SyncFetch?
    ensures step.SkipWork? || step.Unpark? ==> Enabled(w, step, now)
    ensures step.SyncAbort? ==> (Enabled(w, step, now) <==> ProjectorOf(w, step.lane).Page?)
    ensures Enabled(w, step, now) ==> NextLogs(w, step, now) == w.logs
    ensures Enabled(w, step, now) && (step.SkipWork? || step.Unpark?) ==> NextProjectors(w, step, now) == w.projectors
    ensures Enabled(w, step, now) && step.SkipWork? ==> CallOf(w, step, now) == Some(OpSkip(step.id))
    ensures Enabled(w, step, now) && step.Unpark? ==> CallOf(w, step, now) == Some(OpUnpark(step.lane))
    ensures Enabled(w, step, now) && (step.SyncAbort? || step.SyncFetch?) ==> CallOf(w, step, now).None?
  {
    hide Claimable, InLog, Live, LogOf, ProjectorOf, CursorOf, Parked, Projects, Position, Deliverable;
  }

  lemma Aborted(policy: Policy, w: World, lane: LaneKey)
    ensures var v := Next(policy, w, At(SyncAbort(lane), 0));
      v.db == w.db && v.logs == w.logs && ProjectorOf(v, lane).Off?
  {
    var step := SyncAbort(lane);
    hide Next, Taken, Enabled, CallOf, DbAfter, NextLogs, LogOf;
    PlainStep(policy, w, step, 0);
    if ProjectorOf(w, lane).Page? {
      WorldParts(policy, w, step, 0);
      NoCallNoChange(policy, w, step, 0);
    } else {
      NotEnabled(policy, w, step, 0);
    }
  }

  lemma NotEnabled(policy: Policy, w: World, step: Step, now: Time)
    requires !Enabled(w, step, now)
    ensures Next(policy, w, At(step, now)) == w
  {
    hide Enabled, Taken;
  }

  lemma CallDb(policy: Policy, w: World, step: Step, now: Time, op: Op)
    requires Enabled(w, step, now) && CallOf(w, step, now) == Some(op)
    ensures DbAfter(policy, w, step, now) == Apply(policy, w.db, Call(op, now))
  {
    hide Enabled, CallOf, Apply;
  }

  lemma RepairDb(policy: Policy, db: Db, op: Op, now: Time)
    ensures op.OpSkip? ==> Apply(policy, db, Call(op, now)) == Skip(db, op.id)
    ensures op.OpUnpark? ==> Apply(policy, db, Call(op, now)) == UnparkCursor(db, op.lane)
  {
    hide Skip, UnparkCursor;
  }

  lemma UnparkedDb(db: Db, lane: LaneKey)
    ensures var after := UnparkCursor(db, lane);
      && after.work == db.work && after.lanes == db.lanes && after.commands == db.commands
      && CursorOf(after, lane) == CursorOf(db, lane) && !Parked(after, lane)
  {
  }

  lemma Unparked(policy: Policy, w: World, lane: LaneKey)
    ensures var v := Next(policy, w, At(Unpark(lane), 0));
      && v.db == UnparkCursor(w.db, lane) && v.logs == w.logs && v.projectors == w.projectors
      && v.db.work == w.db.work && v.db.lanes == w.db.lanes && v.db.commands == w.db.commands
      && CursorOf(v.db, lane) == CursorOf(w.db, lane) && !Parked(v.db, lane)
  {
    hide Next, Taken, Enabled, CallOf, DbAfter, Apply, NextLogs, NextProjectors, UnparkCursor, CursorOf, Parked;
    PlainStep(policy, w, Unpark(lane), 0);
    WorldParts(policy, w, Unpark(lane), 0);
    CallDb(policy, w, Unpark(lane), 0, OpUnpark(lane));
    RepairDb(policy, w.db, OpUnpark(lane), 0);
    UnparkedDb(w.db, lane);
  }

  lemma Fetched(policy: Policy, w: World, lane: LaneKey, size: nat)
    requires lane in w.db.lanes && size > 0 && ProjectorOf(w, lane).Off? && !Parked(w.db, lane)
    requires CursorOf(w.db, lane) + size <= |LogOf(w, lane)|
    ensures var v := Next(policy, w, At(SyncFetch(lane, size), 0));
      v.db == w.db && v.logs == w.logs && ProjectorOf(v, lane) == Page(CursorOf(w.db, lane), size, 0)
  {
    var step := SyncFetch(lane, size);
    FetchPage(w, lane, size);
    hide *;
    PlainStep(policy, w, step, 0);
    WorldParts(policy, w, step, 0);
    NoCallNoChange(policy, w, step, 0);
    PageOf(Next(policy, w, At(step, 0)), w, lane, Page(CursorOf(w.db, lane), size, 0));
  }

  lemma FetchPage(w: World, lane: LaneKey, size: nat)
    requires lane in w.db.lanes && size > 0 && ProjectorOf(w, lane).Off? && !Parked(w.db, lane)
    requires CursorOf(w.db, lane) + size <= |LogOf(w, lane)|
    ensures Enabled(w, SyncFetch(lane, size), 0)
    ensures NextProjectors(w, SyncFetch(lane, size), 0) == w.projectors[lane := Page(CursorOf(w.db, lane), size, 0)]
  {
    hide CursorOf, Parked, LogOf, ProjectorOf;
  }

  lemma PageOf(v: World, w: World, lane: LaneKey, page: Projector)
    requires v.projectors == w.projectors[lane := page]
    ensures ProjectorOf(v, lane) == page
  {
  }

  lemma CursorFinds(policy: Policy, w: World, lane: LaneKey, u: nat) returns (more: seq<Occurrence>)
    requires Replayable(w.db, lane, LogOf(w, lane)) && CursorOf(w.db, lane) <= u < |LogOf(w, lane)|
    requires Overtaken(w.db.work, lane, LogOf(w, lane), u)
    ensures Leads(policy, w, more, lane)
  {
    var abort, unpark := At(SyncAbort(lane), 0), At(Unpark(lane), 0);
    var fetch := At(SyncFetch(lane, u + 1 - CursorOf(w.db, lane)), 0);
    hide Next, Replayable, Overtaken, Leads, LogOf, ProjectorOf, Replaying, CursorOf;
    StartOver(policy, w, lane, u + 1 - CursorOf(w.db, lane));
    var off := Next(policy, w, abort);
    var free := Next(policy, off, unpark);
    more := PageFinds(policy, Next(policy, free, fetch), lane, u);
    LeadsAfter(policy, free, fetch, more, lane);
    LeadsAfter(policy, off, unpark, [fetch] + more, lane);
    LeadsAfter(policy, w, abort, [unpark] + ([fetch] + more), lane);
    more := [abort] + ([unpark] + ([fetch] + more));
  }

  lemma QueuedIsAhead(db: Db, lane: LaneKey, log: seq<Event>, t: nat, now: Time, u: nat)
    requires Replayable(db, lane, log) && u < t < |log|
    requires Open(db.work, lane, log, t) && Open(db.work, lane, log, u)
    ensures Overtaken(Synced(db, lane, log, t, now).work, lane, log, u)
  {
    assert UniqueIds(log) by { hide UniqueIds, FromLog, UniqueSources, GoodRows; }
    hide Replayable, Projects, HasRow, Synced, DeliversEvent;
    SyncedIs(db, lane, log, t, now);
    OpenIsDeliverable(db.work, lane, log, t);
    var r := DeliveryRow(db, lane, log, t, now);
    OpenUnmoved(db.work, r, lane, log, t, u);
    SyncedDelivers(db, lane, log, t, now, |db.work|, t);
    OpenBehind(db.work + [r], lane, log, u, |db.work|, t);
  }

  /** Processing an open event overtakes an earlier one. */
  lemma OpenStep(policy: Policy, w: World, lane: LaneKey, u: nat)
    requires Replaying(w, lane)
    requires var page := ProjectorOf(w, lane);
      page.done < page.size && u < page.offset + page.done < |LogOf(w, lane)| &&
      Open(w.db.work, lane, LogOf(w, lane), u) && Open(w.db.work, lane, LogOf(w, lane), page.offset + page.done)
    ensures var v := Next(policy, w, At(SyncEvent(lane), 0));
      && LogOf(v, lane) == LogOf(w, lane) && CursorOf(v.db, lane) == CursorOf(w.db, lane)
      && Overtaken(v.db.work, lane, LogOf(w, lane), u) && Replaying(v, lane)
  {
    hide *;
    ReplayingPage(w, lane);
    var page, log := ProjectorOf(w, lane), LogOf(w, lane);
    SyncStep(policy, w, lane, 0);
    QueuedIsAhead(w.db, lane, log, page.offset + page.done, 0, u);
  }

  lemma NextOvertakes(policy: Policy, w: World, lane: LaneKey, u: nat) returns (more: seq<Occurrence>)
    requires Replaying(w, lane) && CursorOf(w.db, lane) <= u < |LogOf(w, lane)|
    requires var page := ProjectorOf(w, lane);
      page.done < page.size && u < page.offset + page.done < |LogOf(w, lane)| &&
      Open(w.db.work, lane, LogOf(w, lane), u) && Open(w.db.work, lane, LogOf(w, lane), page.offset + page.done)
    ensures Leads(policy, w, more, lane)
  {
    var at := At(SyncEvent(lane), 0);
    hide *;
    OpenStep(policy, w, lane, u);
    ReplayingPage(Next(policy, w, at), lane);
    var rest := CursorFinds(policy, Next(policy, w, at), lane, u);
    LeadsAfter(policy, w, at, rest, lane);
    more := [at] + rest;
  }

  /** A page that queues a delivery past an open event has that event overtaken. */
  lemma {:induction false} PageOvertakes(policy: Policy, w: World, lane: LaneKey, u: nat)
      returns (more: seq<Occurrence>)
    requires Replaying(w, lane) && CursorOf(w.db, lane) <= u < |LogOf(w, lane)|
    requires Open(w.db.work, lane, LogOf(w, lane), u)
    requires QueuesPast(w.db.work, lane, LogOf(w, lane), ProjectorOf(w, lane), u)
    ensures Leads(policy, w, more, lane)
    decreases |LogOf(w, lane)| - ProjectorOf(w, lane).offset - ProjectorOf(w, lane).done
  {
    hide *;
    ReplayingPage(w, lane);
    var at, page, log := At(SyncEvent(lane), 0), ProjectorOf(w, lane), LogOf(w, lane);
    PageHasMore(w.db.work, lane, log, page, u);
    if Open(w.db.work, lane, log, page.offset + page.done) {
      more := NextOvertakes(policy, w, lane, u);
    } else {
      ClosedStep(policy, w, lane);
      LaterQueues(w.db.work, lane, log, page, u);
      var rest := PageOvertakes(policy, Next(policy, w, at), lane, u);
      LeadsAfter(policy, w, at, rest, lane);
      more := [at] + rest;
    }
  }

  lemma PageHasMore(work: seq<Row>, lane: LaneKey, log: seq<Event>, page: Projector, u: nat)
    requires QueuesPast(work, lane, log, page, u)
    ensures u < page.offset + page.done < page.offset + page.size
  {
    hide Open;
  }

  lemma LaterQueues(work: seq<Row>, lane: LaneKey, log: seq<Event>, page: Projector, u: nat)
    requires QueuesPast(work, lane, log, page, u) && page.offset + page.done < |log|
    requires !Open(work, lane, log, page.offset + page.done)
    ensures QueuesPast(work, lane, log, page.(done := page.done + 1), u)
  {
    hide Open;
    var q :| page.offset + page.done <= q < page.offset + page.size && q < |log| && Open(work, lane, log, q);
    assert q >= page.offset + page.done + 1;
  }

  lemma ProjectedLane(db: Db, lane: LaneKey, log: seq<Event>, i: nat, p: nat)
    requires CoordinatorInv(db) && DeliversEvent(db.work, lane, log, i, p)
    ensures lane in db.lanes
  {
    assert GoodRow(db.work[i]) && GoodSource(db.work[i], db.commands);
  }

  lemma OvertakenReplayable(w: World, lane: LaneKey, u: nat)
    requires ProjectionInv(w) && Sourced(w, lane) && u < |LogOf(w, lane)|
    requires Overtaken(w.db.work, lane, LogOf(w, lane), u)
    ensures Replayable(w.db, lane, LogOf(w, lane))
  {
    WorldOf(w);
    WorldFacts(w);
    hide ProjectionInv, WorldInv, UniqueSources, GoodRows, FromLog, UniqueIds, LogOf, CoordinatorInv, Projects, HasRow,
      DeliversEvent;
    var i, p :| 0 <= i < |w.db.work| && u < p < |LogOf(w, lane)| &&
      DeliversEvent(w.db.work, lane, LogOf(w, lane), i, p);
    ProjectedLane(w.db, lane, LogOf(w, lane), i, p);
  }

  lemma EndangeredLeads(policy: Policy, w: World, lane: LaneKey) returns (more: seq<Occurrence>)
    requires ProjectionInv(w) && Sourced(w, lane) && Endangered(w, lane)
    ensures Leads(policy, w, more, lane)
  {
    hide ProjectionInv, Sourced, LogOf, ProjectorOf, CursorOf, Overtaken, Open, Replayable, Leads;
    var u :| CursorOf(w.db, lane) <= u < |LogOf(w, lane)| &&
      Doomed(w.db.work, lane, LogOf(w, lane), ProjectorOf(w, lane), u);
    if Overtaken(w.db.work, lane, LogOf(w, lane), u) {
      OvertakenReplayable(w, lane, u);
      more := CursorFinds(policy, w, lane, u);
    } else {
      PageIsReplaying(w, lane);
      more := PageOvertakes(policy, w, lane, u);
    }
  }

  // ---- Every reached world ------------------------------------------------------------------------

  lemma {:induction false} EndangeredAtFirst(policy: Policy, dispatchers: nat, intakeWorkers: nat,
                                             steps: seq<Occurrence>, more: seq<Occurrence>, lane: LaneKey)
    requires SkipsNothing(more)
    requires Endangered(Run(policy, Run(policy, Initial(dispatchers, intakeWorkers), steps), more), lane)
    ensures Endangered(Run(policy, Initial(dispatchers, intakeWorkers), steps), lane)
  {
    if more != [] {
      var last := |more| - 1;
      var start := Initial(dispatchers, intakeWorkers);
      var w := Run(policy, Run(policy, start, steps), more[..last]);
      RunAfter(policy, start, steps, more[..last]);
      RunAfter(policy, start, steps, more);
      RunIsSourced(policy, dispatchers, intakeWorkers, steps + more[..last], lane);
      RunIntakeInv(policy, dispatchers, intakeWorkers, steps + more);
      hide Next, ProjectionInv, IntakeInv, Sourced, Endangered, Initial;
      EndangeredBefore(policy, w, more[last], lane);
      EndangeredAtFirst(policy, dispatchers, intakeWorkers, steps, more[..last], lane);
    }
  }

  lemma LeadsParts(policy: Policy, w: World, more: seq<Occurrence>, lane: LaneKey)
    requires Leads(policy, w, more, lane)
    ensures more != [] && SkipsNothing(more[..|more| - 1])
    ensures ProcessesOvertaken(Run(policy, w, more[..|more| - 1]), more[|more| - 1], lane)
  {
    hide Run, ProcessesOvertaken;
  }

  lemma LeadsOnlyEndangered(policy: Policy, dispatchers: nat, intakeWorkers: nat, steps: seq<Occurrence>,
                            more: seq<Occurrence>, lane: LaneKey)
    requires Leads(policy, Run(policy, Initial(dispatchers, intakeWorkers), steps), more, lane)
    ensures Endangered(Run(policy, Initial(dispatchers, intakeWorkers), steps), lane)
  {
    var start := Initial(dispatchers, intakeWorkers);
    LeadsParts(policy, Run(policy, start, steps), more, lane);
    var prefix := more[..|more| - 1];
    hide Run, ProjectionInv, Sourced, Endangered, Initial, ProcessesOvertaken, Leads, SkipsNothing;
    RunAfter(policy, start, steps, prefix);
    RunIsSourced(policy, dispatchers, intakeWorkers, steps + prefix, lane);
    OvertakingIsEndangered(Run(policy, Run(policy, start, steps), prefix), more[|more| - 1], lane);
    EndangeredAtFirst(policy, dispatchers, intakeWorkers, steps, prefix, lane);
  }

  /**
   From a reached world some continuation without a skip processes an overtaken event if and only if the
   lane is endangered.
   */
  lemma OvertakesIffEndangered(policy: Policy, w: World, lane: LaneKey)
    requires Reachable(policy, w)
    ensures (exists more :: Leads(policy, w, more, lane)) <==> Endangered(w, lane)
  {
    hide Run, Leads, Endangered, ProjectionInv, Sourced;
    var dispatchers, intakeWorkers, steps :| w == Run(policy, Initial(dispatchers, intakeWorkers), steps);
    if more :| Leads(policy, w, more, lane) {
      LeadsOnlyEndangered(policy, dispatchers, intakeWorkers, steps, more, lane);
    }
    if Endangered(w, lane) {
      RunIsSourced(policy, dispatchers, intakeWorkers, steps, lane);
      var more := EndangeredLeads(policy, w, lane);
    }
  }

  lemma SkipStep(policy: Policy, w: World, id: nat, now: Time)
    ensures var v := Next(policy, w, At(SkipWork(id), now));
      && v.db == Skip(w.db, id) && v.logs == w.logs && v.projectors == w.projectors
      && v.db.cursors == w.db.cursors
  {
    assert Skip(w.db, id).cursors == w.db.cursors;
    hide Next, Taken, Enabled, CallOf, DbAfter, Apply, NextLogs, NextProjectors, Skip;
    PlainStep(policy, w, SkipWork(id), now);
    WorldParts(policy, w, SkipWork(id), now);
    CallDb(policy, w, SkipWork(id), now, OpSkip(id));
    RepairDb(policy, w.db, OpSkip(id), now);
  }

  lemma ReachableNext(policy: Policy, w: World, at: Occurrence)
    requires Reachable(policy, w)
    ensures Reachable(policy, Next(policy, w, at))
  {
    hide Run, Next;
    var dispatchers, intakeWorkers, steps :| w == Run(policy, Initial(dispatchers, intakeWorkers), steps);
    RunAfter(policy, Initial(dispatchers, intakeWorkers), steps, [at]);
    RunOne(policy, w, at);
    assert Next(policy, w, at) == Run(policy, Initial(dispatchers, intakeWorkers), steps + [at]);
  }

  /**
   After an operator's skip some continuation without a further skip processes an overtaken event of a
   lane if and only if the outbox the skip leaves, with the lane's log, cursor and page as they are,
   endangers the lane. It can be checked before the skip.
   */
  lemma SkipEndangersIff(policy: Policy, w: World, id: nat, now: Time, lane: LaneKey)
    requires Reachable(policy, w)
    ensures (exists more :: Leads(policy, Next(policy, w, At(SkipWork(id), now)), more, lane)) <==>
      Endangers(Skip(w.db, id).work, lane, LogOf(w, lane), CursorOf(w.db, lane), ProjectorOf(w, lane))
  {
    SkipStep(policy, w, id, now);
    hide Reachable, Next, Leads, Endangers, Skip;
    ReachableNext(policy, w, At(SkipWork(id), now));
    OvertakesIffEndangered(policy, Next(policy, w, At(SkipWork(id), now)), lane);
  }

  // ---- Runs -----------------------------------------------------------------------------------------

  predicate SafeStep(policy: Policy, w: World, at: Occurrence, lane: LaneKey) {
    at.step.SkipWork? ==> !Endangered(Next(policy, w, at), lane)
  }

  predicate SafeRun(policy: Policy, start: World, steps: seq<Occurrence>, lane: LaneKey) {
    forall n :: 0 <= n < |steps| ==> SafeStep(policy, Run(policy, start, steps[..n]), steps[n], lane)
  }

  lemma SafePrefix(policy: Policy, start: World, steps: seq<Occurrence>, n: nat, lane: LaneKey)
    requires n <= |steps| && SafeRun(policy, start, steps, lane)
    ensures SafeRun(policy, start, steps[..n], lane)
  {
    hide Run, SafeStep;
    forall m | 0 <= m < n ensures SafeStep(policy, Run(policy, start, steps[..n][..m]), steps[..n][m], lane) {
      assert steps[..n][..m] == steps[..m];
    }
  }

  lemma {:induction false} SafeRunEndangersNothing(policy: Policy, dispatchers: nat, intakeWorkers: nat,
                                                   steps: seq<Occurrence>, lane: LaneKey)
    requires SafeRun(policy, Initial(dispatchers, intakeWorkers), steps, lane)
    ensures !Endangered(Run(policy, Initial(dispatchers, intakeWorkers), steps), lane)
  {
    var start := Initial(dispatchers, intakeWorkers);
    if steps == [] {
      assert LogOf(start, lane) == [];
    } else {
      var last := |steps| - 1;
      var w := Run(policy, start, steps[..last]);
      SafePrefix(policy, start, steps, last, lane);
      assert SafeStep(policy, w, steps[last], lane);
      RunIsSourced(policy, dispatchers, intakeWorkers, steps[..last], lane);
      RunIntakeInv(policy, dispatchers, intakeWorkers, steps);
      hide Next, ProjectionInv, IntakeInv, Sourced, Endangered, Initial, SafeRun;
      SafeRunEndangersNothing(policy, dispatchers, intakeWorkers, steps[..last], lane);
      if Endangered(Next(policy, w, steps[last]), lane) {
        EndangeredBefore(policy, w, steps[last], lane);
      }
    }
  }

  /** If no skip of a run leaves the lane endangered, no step of the run processes an overtaken event of it. */
  lemma SafeRunsOvertakeNothing(policy: Policy, dispatchers: nat, intakeWorkers: nat, steps: seq<Occurrence>,
                                lane: LaneKey)
    requires SafeRun(policy, Initial(dispatchers, intakeWorkers), steps, lane)
    ensures NeverOvertaken(policy, Initial(dispatchers, intakeWorkers), steps, lane)
  {
    var start := Initial(dispatchers, intakeWorkers);
    hide Run, SafeRun, Initial, ProjectionInv, Sourced, Endangered, ProcessesOvertaken;
    forall n | 0 <= n < |steps| ensures !ProcessesOvertaken(Run(policy, start, steps[..n]), steps[n], lane) {
      SafePrefix(policy, start, steps, n, lane);
      SafeRunEndangersNothing(policy, dispatchers, intakeWorkers, steps[..n], lane);
      RunIsSourced(policy, dispatchers, intakeWorkers, steps[..n], lane);
      if ProcessesOvertaken(Run(policy, start, steps[..n]), steps[n], lane) {
        OvertakingIsEndangered(Run(policy, start, steps[..n]), steps[n], lane);
      }
    }
  }
}
