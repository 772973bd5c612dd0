/**
 End to end: exactly when the outbox of a lane, and the send marks of its agent messages, are in
 event-log order. An event processed late, by a replay that decides differently from the first pass,
 goes behind deliveries of later events; nothing else in any run puts a lane out of order.
 */
module RelayOrder {
  import opened Identities
  import opened WorkTable
  import opened WorkInvariants
  import opened CoordinatorInvariants
  import opened RowMoves
  import opened AgentEvents
  import opened Relay
  import opened RelayInvariants
  import opened RelayDelivery
  import opened RelayIntake
  import opened ProjectionFold
  import opened RelayProjection
  import opened ReplayOrder

  // ---- What a step queues -----------------------------------------------------------------------

  predicate ProcessesEvent(w: World, at: Occurrence, lane: LaneKey) {
    at.step == SyncEvent(lane) && Enabled(w, at.step, at.now)
  }

  /** The step queues a delivery of the event it processes. */
  predicate Queues(w: World, at: Occurrence, lane: LaneKey) {
    && ProcessesEvent(w, at, lane)
    && Position(w, lane) < |LogOf(w, lane)|
    && Projects(w.db.work, LogOf(w, lane), lane, Position(w, lane))
    && !HasRow(w.db.work, lane, LogOf(w, lane)[Position(w, lane)])
  }

  /** The step processes an event whose delivery belongs ahead of one that is queued already. */
  predicate ProcessesOvertaken(w: World, at: Occurrence, lane: LaneKey) {
    && ProcessesEvent(w, at, lane)
    && Position(w, lane) < |LogOf(w, lane)|
    && Overtaken(w.db.work, lane, LogOf(w, lane), Position(w, lane))
  }

  predicate Delivered(w: World, lane: LaneKey, i: nat, p: nat) {
    DeliversEvent(w.db.work, lane, LogOf(w, lane), i, p)
  }

  /** Of two deliveries of a lane, the earlier one is of the later event. */
  predicate Inverted(w: World, lane: LaneKey, i: nat, p: nat, j: nat, q: nat) {
    i < j && q < p && Delivered(w, lane, i, p) && Delivered(w, lane, j, q)
  }

  /** Step n of the run queued row j, of event q, behind row i, of the later event p. */
  predicate OvertookAt(policy: Policy, start: World, steps: seq<Occurrence>, lane: LaneKey, n: nat, i: nat, p: nat,
                       j: nat, q: nat)
  {
    n < |steps| &&
    var w := Run(policy, start, steps[..n]);
    Queues(w, steps[n], lane) && j == |w.db.work| && q == Position(w, lane) && q < p && Delivered(w, lane, i, p)
  }

  /** Every delivery projected for the lane is of an event of its log. */
  predicate Sourced(w: World, lane: LaneKey) {
    FromLog(w.db.work, lane, LogOf(w, lane)) && UniqueIds(LogOf(w, lane))
  }

  // ---- One step ---------------------------------------------------------------------------------

  lemma WorldOf(w: World)
    requires ProjectionInv(w)
    ensures WorldInv(w)
  {
    hide WorldInv;
  }

  lemma UniqueLog(w: World, lane: LaneKey)
    requires IntakeInv(w)
    ensures UniqueIds(LogOf(w, lane))
  {
    hide UniqueIds;
    assert LaneInv(w.db, lane, LogOf(w, lane));
  }

  lemma NoNewProjection(db: Db, call: Call, after: Db, lane: LaneKey)
    requires Explained(db, call, after)
    requires call.op.OpInsertDelivery? ==> call.op.source.EventKey? && call.op.source.lane != lane
    ensures forall i :: |db.work| <= i < |after.work| ==> !IsProjection(after.work[i], lane)
  {
    forall i | |db.work| <= i < |after.work| ensures !IsProjection(after.work[i], lane) {
      assert Appended(call, after.work[i]);
    }
  }

  lemma OneMoreDelivery(work: seq<Row>, r: Row, lane: LaneKey, log: seq<Event>, t: nat, i: nat, p: nat)
    requires UniqueIds(log) && t < |log| && IsProjection(r, lane) && r.source.event == log[t].id
    ensures DeliversEvent(work + [r], lane, log, i, p) <==>
      DeliversEvent(work, lane, log, i, p) || (i == |work| && p == t)
  {
  }

  /** A step that processes an event queues that event's delivery or nothing. */
  lemma SyncDelivers(policy: Policy, w: World, lane: LaneKey, now: Time, i: nat, p: nat)
    requires ProjectionInv(w) && Sourced(w, lane) && Enabled(w, SyncEvent(lane), now)
    ensures var at, after := At(SyncEvent(lane), now), Taken(policy, w, SyncEvent(lane), now);
      && Sourced(after, lane)
      && (Delivered(after, lane, i, p) <==>
            Delivered(w, lane, i, p) || (Queues(w, at, lane) && i == |w.db.work| && p == Position(w, lane)))
  {
    var log, t := LogOf(w, lane), Position(w, lane);
    assert GoodFeed(w.db, lane, log, ProjectorOf(w, lane), FrontierOf(w, lane));
    hide WorldInv, IntakeInv, FeedInv, RefineInv, DbAfter, Taken, Enabled, FromLog, LogOf, Position, UniqueIds, Synced,
      Projects, HasRow, DeliversEvent, GoodFeed;
    SyncEventDb(policy, w, lane, now);
    PageIsBehind(w, lane, now);
    WorldFacts(w);
    assert Replayable(w.db, lane, log) by { hide UniqueSources, GoodRows; }
    SyncedIs(w.db, lane, log, t, now);
    SyncedIsReplayable(w.db, lane, log, t, now);
    if Queues(w, At(SyncEvent(lane), now), lane) {
      var r := DeliveryRow(w.db, lane, log, t, now);
      assert IsProjection(r, lane) && r.source.event == log[t].id;
      OneMoreDelivery(w.db.work, r, lane, log, t, i, p);
    }
  }

  lemma SameDeliveries(a: Db, b: Db, lane: LaneKey, log: seq<Event>, i: nat, p: nat)
    requires Evolves(a, b)
    requires forall k :: |a.work| <= k < |b.work| ==> !IsProjection(b.work[k], lane)
    ensures DeliversEvent(b.work, lane, log, i, p) <==> DeliversEvent(a.work, lane, log, i, p)
  {
    if i < |a.work| {
      assert Successor(a.work[i], b.work[i]);
    }
  }

  /** A longer log gives the deliveries there are no other event. */
  lemma LongerLog(work: seq<Row>, lane: LaneKey, log: seq<Event>, e: Event, i: nat, p: nat)
    requires FromLog(work, lane, log) && UniqueIds(log + [e])
    ensures DeliversEvent(work, lane, log + [e], i, p) <==> DeliversEvent(work, lane, log, i, p)
  {
    var longer := log + [e];
    if DeliversEvent(work, lane, longer, i, p) {
      var k :| 0 <= k < |log| && DeliversEvent(work, lane, log, i, k);
      assert longer[k] == log[k];
    }
  }

  lemma LongerLogSource(work: seq<Row>, lane: LaneKey, log: seq<Event>, e: Event)
    requires FromLog(work, lane, log)
    ensures FromLog(work, lane, log + [e])
  {
    forall i | 0 <= i < |work| && IsProjection(work[i], lane)
      ensures exists p :: 0 <= p < |log + [e]| && DeliversEvent(work, lane, log + [e], i, p)
    {
      var p :| 0 <= p < |log| && DeliversEvent(work, lane, log, i, p);
      assert DeliversEvent(work, lane, log + [e], i, p);
    }
  }

  lemma QuietDb(policy: Policy, w: World, step: Step, now: Time, lane: LaneKey)
    requires WorldInv(w) && Enabled(w, step, now) && step != SyncEvent(lane)
    ensures var after := DbAfter(policy, w, step, now);
      && Evolves(w.db, after)
      && forall k :: |w.db.work| <= k < |after.work| ==> !IsProjection(after.work[k], lane)
  {
    StepDb(policy, w, step, now);
    hide WorldInv, Enabled, DbAfter, CallOf, Evolves, Explained, CoordinatorInv;
    if CallOf(w, step, now).Some? {
      OtherInsert(w, step, now, lane);
      NoNewProjection(w.db, Call(CallOf(w, step, now).value, now), DbAfter(policy, w, step, now), lane);
    } else {
      NoCallNoChange(policy, w, step, now);
    }
  }

  lemma LogGrowsByOne(policy: Policy, w: World, step: Step, now: Time, lane: LaneKey)
    requires Enabled(w, step, now)
    ensures var before, after := LogOf(w, lane), LogOf(Taken(policy, w, step, now), lane);
      after == before || (|after| == |before| + 1 && after == before + [after[|before|]])
    ensures Taken(policy, w, step, now).db == DbAfter(policy, w, step, now)
  {
    hide InLog, Claimable, DbAfter, NextDispatchers, NextIntakeWorkers, NextProjectors, NextOperations;
  }

  lemma SourcedStays(a: Db, b: Db, lane: LaneKey, log: seq<Event>)
    requires Evolves(a, b) && FromLog(a.work, lane, log)
    requires forall k :: |a.work| <= k < |b.work| ==> !IsProjection(b.work[k], lane)
    ensures FromLog(b.work, lane, log)
  {
    forall i | 0 <= i < |b.work| && IsProjection(b.work[i], lane)
      ensures exists p :: 0 <= p < |log| && DeliversEvent(b.work, lane, log, i, p)
    {
      assert Successor(a.work[i], b.work[i]);
      var p :| 0 <= p < |log| && DeliversEvent(a.work, lane, log, i, p);
      assert DeliversEvent(b.work, lane, log, i, p);
    }
    hide Evolves;
  }

  /** Any other step leaves the deliveries of a lane to their events. */
  lemma QuietDelivers(policy: Policy, w: World, step: Step, now: Time, lane: LaneKey, i: nat, p: nat)
    requires ProjectionInv(w) && Sourced(w, lane) && Enabled(w, step, now) && step != SyncEvent(lane)
    requires UniqueIds(LogOf(Taken(policy, w, step, now), lane))
    ensures var after := Taken(policy, w, step, now);
      Sourced(after, lane) && (Delivered(after, lane, i, p) <==> Delivered(w, lane, i, p))
  {
    WorldOf(w);
    hide ProjectionInv, WorldInv, Enabled, Taken, DbAfter, LogOf, Evolves, UniqueIds, FromLog, DeliversEvent,
      IsProjection;
    var before, after := LogOf(w, lane), LogOf(Taken(policy, w, step, now), lane);
    var db := DbAfter(policy, w, step, now);
    QuietDb(policy, w, step, now, lane);
    LogGrowsByOne(policy, w, step, now, lane);
    SourcedStays(w.db, db, lane, before);
    SameDeliveries(w.db, db, lane, before, i, p);
    if after != before {
      LongerLog(db.work, lane, before, after[|before|], i, p);
      LongerLogSource(db.work, lane, before, after[|before|]);
    }
  }

  /** After any step a row delivers an event exactly if it did before or the step just queued it. */
  lemma NextDelivers(policy: Policy, w: World, at: Occurrence, lane: LaneKey, i: nat, p: nat)
    requires ProjectionInv(w) && Sourced(w, lane) && IntakeInv(Next(policy, w, at))
    ensures var after := Next(policy, w, at);
      && Sourced(after, lane)
      && (Delivered(after, lane, i, p) <==>
            Delivered(w, lane, i, p) || (Queues(w, at, lane) && i == |w.db.work| && p == Position(w, lane)))
  {
    UniqueLog(Next(policy, w, at), lane);
    hide ProjectionInv, IntakeInv, Sourced, Delivered, Enabled, Taken, UniqueIds, Projects, HasRow, Position, LogOf;
    if Enabled(w, at.step, at.now) {
      if at.step == SyncEvent(lane) {
        SyncDelivers(policy, w, lane, at.now, i, p);
      } else {
        QuietDelivers(policy, w, at.step, at.now, lane, i, p);
      }
    }
  }

  lemma {:induction false} RunIsSourced(policy: Policy, dispatchers: nat, intakeWorkers: nat, steps: seq<Occurrence>,
                                        lane: LaneKey)
    ensures var w := Run(policy, Initial(dispatchers, intakeWorkers), steps);
      ProjectionInv(w) && Sourced(w, lane)
  {
    RunProjectionInv(policy, dispatchers, intakeWorkers, steps);
    if steps != [] {
      var prefix := steps[..|steps| - 1];
      RunIsSourced(policy, dispatchers, intakeWorkers, prefix, lane);
      RunIntakeInv(policy, dispatchers, intakeWorkers, steps);
      hide ProjectionInv, Sourced, Next, IntakeInv, Initial;
      NextDelivers(policy, Run(policy, Initial(dispatchers, intakeWorkers), prefix), steps[|steps| - 1], lane, 0, 0);
    } else {
      hide ProjectionInv;
    }
  }

  // ---- Every pair out of order was put there by one step ------------------------------------------

  /**
   Two deliveries of a lane are out of order after a run if and only if some step of the run queued the
   second of them, for an earlier event, when the first was queued already.
   */
  lemma {:induction false} InvertedIff(policy: Policy, dispatchers: nat, intakeWorkers: nat, steps: seq<Occurrence>,
                                       lane: LaneKey, i: nat, p: nat, j: nat, q: nat)
    ensures var start := Initial(dispatchers, intakeWorkers);
      Inverted(Run(policy, start, steps), lane, i, p, j, q) <==>
      exists n :: OvertookAt(policy, start, steps, lane, n, i, p, j, q)
  {
    var start := Initial(dispatchers, intakeWorkers);
    if steps == [] {
      assert Run(policy, start, steps).db.work == [];
    } else {
      var last := |steps| - 1;
      var prefix := steps[..last];
      var w := Run(policy, start, prefix);
      InvertedIff(policy, dispatchers, intakeWorkers, prefix, lane, i, p, j, q);
      RunIsSourced(policy, dispatchers, intakeWorkers, prefix, lane);
      RunIntakeInv(policy, dispatchers, intakeWorkers, steps);
      NextDelivers(policy, w, steps[last], lane, i, p);
      NextDelivers(policy, w, steps[last], lane, j, q);
      DeliveredIsRow(w, lane, i, p);
      DeliveredIsRow(w, lane, j, q);
      hide ProjectionInv, IntakeInv, Sourced, Delivered, Queues, Position, Next, Initial;
      OvertookPrefix(policy, start, steps, lane, i, p, j, q);
    }
  }

  lemma DeliveredIsRow(w: World, lane: LaneKey, i: nat, p: nat)
    ensures Delivered(w, lane, i, p) ==> i < |w.db.work|
  {
  }

  lemma OvertookPrefix(policy: Policy, start: World, steps: seq<Occurrence>, lane: LaneKey, i: nat, p: nat, j: nat,
                       q: nat)
    requires steps != []
    ensures var last := |steps| - 1;
      (exists n :: OvertookAt(policy, start, steps, lane, n, i, p, j, q)) <==>
      (exists n :: OvertookAt(policy, start, steps[..last], lane, n, i, p, j, q)) ||
      OvertookAt(policy, start, steps, lane, last, i, p, j, q)
  {
    var last := |steps| - 1;
    hide Run, Queues, Delivered, Position;
    forall n: nat | n < last
      ensures OvertookAt(policy, start, steps, lane, n, i, p, j, q) <==>
        OvertookAt(policy, start, steps[..last], lane, n, i, p, j, q)
    {
      assert steps[..last][..n] == steps[..n];
    }
  }

  // ---- The outbox -------------------------------------------------------------------------------

  lemma InLogOrderIff(w: World, lane: LaneKey)
    requires ProjectionInv(w) && Sourced(w, lane)
    ensures InLogOrder(w.db.work, lane, LogOf(w, lane)) <==>
      forall i, p, j, q :: !Inverted(w, lane, i, p, j, q)
  {
    var work, log := w.db.work, LogOf(w, lane);
    assert UniqueSources(work) && GoodRows(work, w.db.commands) by { WorldOf(w); WorldFacts(w); }
    hide ProjectionInv, LogOf, FromLog, UniqueIds, GoodRows, UniqueSources, DeliversEvent, InLogOrder;
    if InLogOrder(work, lane, log) {
      forall i: nat, p: nat, j: nat, q: nat ensures !Inverted(w, lane, i, p, j, q) {
        if Inverted(w, lane, i, p, j, q) {
          PairInOrder(work, lane, log, i, p, j, q);
        }
      }
    }
    if forall i, p, j, q :: !Inverted(w, lane, i, p, j, q) {
      forall i: nat, j: nat, p: nat, q: nat
        | i < j && DeliversEvent(work, lane, log, i, p) && DeliversEvent(work, lane, log, j, q)
        ensures p < q
      {
        assert !Inverted(w, lane, i, p, j, q);
        if p == q {
          OneRowPerEvent(w.db, lane, log, i, j, p);
        }
      }
      InOrderByPairs(work, lane, log);
    }
  }

  lemma PairInOrder(work: seq<Row>, lane: LaneKey, log: seq<Event>, i: nat, p: nat, j: nat, q: nat)
    requires InLogOrder(work, lane, log) && i < j
    requires DeliversEvent(work, lane, log, i, p) && DeliversEvent(work, lane, log, j, q)
    ensures p < q
  {
    assert Precedes(log, work[i].source.event, work[j].source.event);
  }

  lemma OneRowPerEvent(db: Db, lane: LaneKey, log: seq<Event>, i: nat, j: nat, p: nat)
    requires UniqueSources(db.work) && GoodRows(db.work, db.commands)
    requires DeliversEvent(db.work, lane, log, i, p) && DeliversEvent(db.work, lane, log, j, p)
    ensures i == j
  {
    assert GoodSource(db.work[i], db.commands) && GoodSource(db.work[j], db.commands);
    hide GoodRows;
  }

  lemma InOrderByPairs(work: seq<Row>, lane: LaneKey, log: seq<Event>)
    requires forall i: nat, j: nat, p: nat, q: nat ::
      i < j && DeliversEvent(work, lane, log, i, p) && DeliversEvent(work, lane, log, j, q) ==> p < q
    ensures InLogOrder(work, lane, log)
  {
    forall i, j, p, q | 0 <= i < j < |work| && IsProjection(work[i], lane) && IsProjection(work[j], lane)
        && 0 <= p < |log| && 0 <= q < |log| && log[p].id == work[i].source.event && log[q].id == work[j].source.event
      ensures p < q
    {
      assert DeliversEvent(work, lane, log, i, p) && DeliversEvent(work, lane, log, j, q);
    }
  }

  predicate NeverOvertaken(policy: Policy, start: World, steps: seq<Occurrence>, lane: LaneKey) {
    forall n :: 0 <= n < |steps| ==> !ProcessesOvertaken(Run(policy, start, steps[..n]), steps[n], lane)
  }

  lemma OvertakenIffSomeone(policy: Policy, start: World, steps: seq<Occurrence>, lane: LaneKey, n: nat)
    requires n < |steps|
    ensures ProcessesOvertaken(Run(policy, start, steps[..n]), steps[n], lane) <==>
      exists i, p, j, q :: OvertookAt(policy, start, steps, lane, n, i, p, j, q)
  {
    var w := Run(policy, start, steps[..n]);
    hide Run, Projects, HasRow, LogOf, Position, ProcessesEvent;
    if ProcessesOvertaken(w, steps[n], lane) {
      var i, p :| 0 <= i < |w.db.work| && Position(w, lane) < p < |LogOf(w, lane)| &&
        DeliversEvent(w.db.work, lane, LogOf(w, lane), i, p);
      assert OvertookAt(policy, start, steps, lane, n, i, p, |w.db.work|, Position(w, lane));
    }
    if i, p, j, q :| OvertookAt(policy, start, steps, lane, n, i, p, j, q) {
      assert DeliversEvent(w.db.work, lane, LogOf(w, lane), i, p);
    }
  }

  /**
   In any interleaving of projector, workers, crashes, reconcile and operators, a lane's outbox is in
   event-log order after the run if and only if no step of the run processed an overtaken event. Whether
   it does can be checked before each step.
   */
  lemma OutboxFollowsTheLogIff(policy: Policy, dispatchers: nat, intakeWorkers: nat, steps: seq<Occurrence>,
                               lane: LaneKey)
    ensures var start := Initial(dispatchers, intakeWorkers);
      var w := Run(policy, start, steps);
      InLogOrder(w.db.work, lane, LogOf(w, lane)) <==> NeverOvertaken(policy, start, steps, lane)
  {
    var start := Initial(dispatchers, intakeWorkers);
    var w := Run(policy, start, steps);
    RunIsSourced(policy, dispatchers, intakeWorkers, steps, lane);
    InLogOrderIff(w, lane);
    hide ProjectionInv, Sourced, InLogOrder, Run, Initial, Inverted, OvertookAt, NeverOvertaken, LogOf;
    if NeverOvertaken(policy, start, steps, lane) {
      forall i: nat, p: nat, j: nat, q: nat ensures !Inverted(w, lane, i, p, j, q) {
        InvertedIff(policy, dispatchers, intakeWorkers, steps, lane, i, p, j, q);
        SomeoneOvertaken(policy, start, steps, lane, i, p, j, q);
      }
    } else {
      var n, i, p, j, q := OvertakenByOne(policy, start, steps, lane);
      InvertedIff(policy, dispatchers, intakeWorkers, steps, lane, i, p, j, q);
    }
  }

  lemma SomeoneOvertaken(policy: Policy, start: World, steps: seq<Occurrence>, lane: LaneKey, i: nat, p: nat, j: nat,
                         q: nat)
    requires NeverOvertaken(policy, start, steps, lane)
    ensures forall n :: !OvertookAt(policy, start, steps, lane, n, i, p, j, q)
  {
    hide Run, OvertookAt, ProcessesOvertaken;
    if n :| OvertookAt(policy, start, steps, lane, n, i, p, j, q) {
      OvertookIsStep(policy, start, steps, lane, n, i, p, j, q);
      OvertakenIffSomeone(policy, start, steps, lane, n);
    }
  }

  lemma OvertakenByOne(policy: Policy, start: World, steps: seq<Occurrence>, lane: LaneKey)
      returns (n: nat, i: nat, p: nat, j: nat, q: nat)
    requires !NeverOvertaken(policy, start, steps, lane)
    ensures OvertookAt(policy, start, steps, lane, n, i, p, j, q)
  {
    hide Run, OvertookAt, ProcessesOvertaken;
    n :| 0 <= n < |steps| && ProcessesOvertaken(Run(policy, start, steps[..n]), steps[n], lane);
    OvertakenIffSomeone(policy, start, steps, lane, n);
    i, p, j, q :| OvertookAt(policy, start, steps, lane, n, i, p, j, q);
  }

  lemma OvertookIsStep(policy: Policy, start: World, steps: seq<Occurrence>, lane: LaneKey, n: nat, i: nat, p: nat,
                       j: nat, q: nat)
    ensures OvertookAt(policy, start, steps, lane, n, i, p, j, q) ==> n < |steps|
  {
    hide Run, Queues, Delivered, Position;
  }

  // ---- The marks --------------------------------------------------------------------------------

  /** Of two durable send marks, the earlier is for the earlier event, or for the same one after a requeue. */
  ghost predicate MarksFollowLog(w: World, lane: LaneKey) {
    forall k, m, p, q ::
      0 <= k < m < |w.marks| && Delivered(w, lane, w.marks[k], p) && Delivered(w, lane, w.marks[m], q) ==> p <= q
  }

  lemma MarkedRowsShareQueue(w: World, lane: LaneKey, i: nat, j: nat, p: nat, q: nat)
    requires ProjectionInv(w) && Delivered(w, lane, i, p) && Delivered(w, lane, j, q)
    ensures SameQueue(w.db.work[i], w.db.work[j])
  {
    WorldOf(w);
    hide ProjectionInv;
    assert GoodSource(w.db.work[i], w.db.commands) && GoodSource(w.db.work[j], w.db.commands);
    hide TableInv, GoodJournal;
  }

  lemma OneEvent(w: World, lane: LaneKey, i: nat, p: nat, q: nat)
    requires Sourced(w, lane) && Delivered(w, lane, i, p) && Delivered(w, lane, i, q)
    ensures p == q
  {
    hide FromLog;
  }

  /** Marks leave the log exactly where two inverted deliveries were both marked. */
  lemma MarksInverted(policy: Policy, w: World, lane: LaneKey)
    requires Reachable(policy, w) && ProjectionInv(w) && Sourced(w, lane)
    ensures MarksFollowLog(w, lane) <==>
      forall i, p, j, q :: Inverted(w, lane, i, p, j, q) ==> i !in w.marks || j !in w.marks
  {
    hide Reachable, ProjectionInv, Sourced, Delivered, SameQueue;
    if MarksFollowLog(w, lane) {
      forall i, p, j, q | Inverted(w, lane, i, p, j, q) && i in w.marks && j in w.marks ensures false {
        var k :| 0 <= k < |w.marks| && w.marks[k] == i;
        var m :| 0 <= m < |w.marks| && w.marks[m] == j;
        MarkedRowsShareQueue(w, lane, j, i, q, p);
        if m < k {
          NoOvertaking(policy, w, m, k);
        }
      }
    }
    if forall i, p, j, q :: Inverted(w, lane, i, p, j, q) ==> i !in w.marks || j !in w.marks {
      forall k, m, p, q | 0 <= k < m < |w.marks| && Delivered(w, lane, w.marks[k], p) &&
        Delivered(w, lane, w.marks[m], q)
        ensures p <= q
      {
        var i, j := w.marks[k], w.marks[m];
        NoOvertaking(policy, w, k, m);
        MarkedRowsShareQueue(w, lane, i, j, p, q);
        assert !Inverted(w, lane, i, p, j, q);
        if i == j {
          OneEvent(w, lane, i, p, q);
        }
      }
    }
  }

  /** Step n queued a delivery behind one of a later event, and both have been marked for sending. */
  predicate MarkedOvertaking(policy: Policy, start: World, steps: seq<Occurrence>, lane: LaneKey, n: nat, i: nat,
                             p: nat, j: nat, q: nat)
  {
    && OvertookAt(policy, start, steps, lane, n, i, p, j, q)
    && i in Run(policy, start, steps).marks && j in Run(policy, start, steps).marks
  }

  /**
   In any interleaving, the durable send marks of a lane's agent messages follow the event log if and
   only if no step of the run processed an overtaken event whose delivery was then marked, as was one of
   a later event queued before it.
   */
  lemma MarksFollowTheLogIff(policy: Policy, dispatchers: nat, intakeWorkers: nat, steps: seq<Occurrence>,
                             lane: LaneKey)
    ensures var start := Initial(dispatchers, intakeWorkers);
      MarksFollowLog(Run(policy, start, steps), lane) <==>
      forall n, i, p, j, q :: !MarkedOvertaking(policy, start, steps, lane, n, i, p, j, q)
  {
    var start := Initial(dispatchers, intakeWorkers);
    var w := Run(policy, start, steps);
    RunIsSourced(policy, dispatchers, intakeWorkers, steps, lane);
    assert Reachable(policy, w);
    MarksInverted(policy, w, lane);
    hide Reachable, ProjectionInv, Sourced, Run, Initial, Inverted, OvertookAt, MarksFollowLog;
    forall i, p, j, q
      ensures Inverted(w, lane, i, p, j, q) <==> exists n :: OvertookAt(policy, start, steps, lane, n, i, p, j, q)
    {
      InvertedIff(policy, dispatchers, intakeWorkers, steps, lane, i, p, j, q);
    }
    if !MarksFollowLog(w, lane) {
      var i, p, j, q :| Inverted(w, lane, i, p, j, q) && i in w.marks && j in w.marks;
      var n :| OvertookAt(policy, start, steps, lane, n, i, p, j, q);
      assert MarkedOvertaking(policy, start, steps, lane, n, i, p, j, q);
    }
    if n, i, p, j, q :| MarkedOvertaking(policy, start, steps, lane, n, i, p, j, q) {
      assert OvertookAt(policy, start, steps, lane, n, i, p, j, q);
      assert Inverted(w, lane, i, p, j, q);
    }
  }

  /** A world reached by a run that processed no overtaken event of the lane. */
  ghost predicate ReachedInOrder(policy: Policy, w: World, lane: LaneKey) {
    exists dispatchers: nat, intakeWorkers: nat, steps: seq<Occurrence> ::
      w == Run(policy, Initial(dispatchers, intakeWorkers), steps) &&
      NeverOvertaken(policy, Initial(dispatchers, intakeWorkers), steps, lane)
  }

  /** Where no overtaken event was processed, marks follow the log. */
  lemma MarksFollowTheLog(policy: Policy, w: World, lane: LaneKey)
    requires ReachedInOrder(policy, w, lane)
    ensures MarksFollowLog(w, lane)
  {
    hide Run, NeverOvertaken, ProjectionInv, Sourced, Inverted, MarksFollowLog, InLogOrder, LogOf;
    var dispatchers, intakeWorkers, steps :|
      w == Run(policy, Initial(dispatchers, intakeWorkers), steps) &&
      NeverOvertaken(policy, Initial(dispatchers, intakeWorkers), steps, lane);
    assert Reachable(policy, w);
    OutboxFollowsTheLogIff(policy, dispatchers, intakeWorkers, steps, lane);
    RunIsSourced(policy, dispatchers, intakeWorkers, steps, lane);
    InLogOrderIff(w, lane);
    MarksInverted(policy, w, lane);
  }
}
