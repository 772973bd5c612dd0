/**
 When replaying a page keeps the outbox in log order.

 The projector drops a final reply that echoes a queued send, and forgets the echo once an operator
 skips that send. A replay after a crash may therefore decide differently from the first pass, and
 queue a reply behind deliveries of later events. This module says exactly when that happens.
 */
module ReplayOrder {
  import opened Identities
  import opened WorkTable
  import opened WorkInvariants
  import opened CoordinatorInvariants
  import opened AgentEvents
  import opened Relay
  import opened ProjectionFold

  /** Projected deliveries stand in the queue in the order of their events. */
  predicate InLogOrder(work: seq<Row>, lane: LaneKey, log: seq<Event>) {
    forall i, j :: 0 <= i < j < |work| && IsProjection(work[i], lane) && IsProjection(work[j], lane) ==>
      Precedes(log, work[i].source.event, work[j].source.event)
  }

  /** Row i delivers event p of the log. */
  predicate DeliversEvent(work: seq<Row>, lane: LaneKey, log: seq<Event>, i: nat, p: nat) {
    i < |work| && p < |log| && IsProjection(work[i], lane) && work[i].source.event == log[p].id
  }

  predicate FromLog(work: seq<Row>, lane: LaneKey, log: seq<Event>) {
    forall i :: 0 <= i < |work| && IsProjection(work[i], lane) ==>
      exists p :: 0 <= p < |log| && DeliversEvent(work, lane, log, i, p)
  }

  predicate HasRow(work: seq<Row>, lane: LaneKey, e: Event) {
    FindSource(work, Delivery, EventKey(e.id, lane)).Some?
  }

  /** The event at t would be queued now, but the delivery of a later event already is. */
  predicate Overtaken(work: seq<Row>, lane: LaneKey, log: seq<Event>, t: nat)
    requires t < |log|
  {
    && Projects(work, log, lane, t)
    && !HasRow(work, lane, log[t])
    && exists i, p :: 0 <= i < |work| && t < p < |log| && DeliversEvent(work, lane, log, i, p)
  }

  /** One uninterrupted pass over the events from t on. */
  function Replayed(db: Db, lane: LaneKey, log: seq<Event>, t: nat, now: Time): Db
    requires t <= |log|
    decreases |log| - t
  {
    if t == |log| then db else Replayed(Synced(db, lane, log, t, now), lane, log, t + 1, now)
  }

  predicate Replayable(db: Db, lane: LaneKey, log: seq<Event>) {
    && lane in db.lanes && UniqueIds(log)
    && UniqueSources(db.work) && GoodRows(db.work, db.commands)
    && FromLog(db.work, lane, log)
  }

  // ---- One event --------------------------------------------------------------------------------

  /** What Synced appends, when it appends. */
  function DeliveryRow(db: Db, lane: LaneKey, log: seq<Event>, t: nat, now: Time): Row
    requires t < |log| && Deliverable(log[t]).Some?
  {
    NewRow(db.work, Delivery, EventKey(log[t].id, lane), lane, log[t].id, ThreadMessage(Deliverable(log[t]).value), now)
  }

  lemma SyncedIs(db: Db, lane: LaneKey, log: seq<Event>, t: nat, now: Time)
    requires Replayable(db, lane, log) && t < |log|
    ensures Synced(db, lane, log, t, now) ==
      if Projects(db.work, log, lane, t) && !HasRow(db.work, lane, log[t])
      then db.(work := db.work + [DeliveryRow(db, lane, log, t, now)]) else db
  {
    assert lane in db.lanes;
    hide FindSource, MaxSequence, Replayable, IsEcho;
  }

  lemma SyncedIsReplayable(db: Db, lane: LaneKey, log: seq<Event>, t: nat, now: Time)
    requires Replayable(db, lane, log) && t < |log|
    ensures Replayable(Synced(db, lane, log, t, now), lane, log)
  {
    SyncedIs(db, lane, log, t, now);
    hide Synced, Projects;
    if Synced(db, lane, log, t, now) != db {
      var r := DeliveryRow(db, lane, log, t, now);
      AppendUnique(db.work, r);
      AppendFromLog(db.work, lane, log, r, t);
      assert GoodRows(db.work + [r], db.commands) by {
        hide FindSource, MaxSequence, UniqueSources, FromLog, UniqueIds;
      }
    }
    hide UniqueSources, GoodRows, FromLog, UniqueIds, DeliveryRow;
  }

  lemma AppendFromLog(work: seq<Row>, lane: LaneKey, log: seq<Event>, r: Row, t: nat)
    requires FromLog(work, lane, log) && t < |log| && IsProjection(r, lane) && r.source.event == log[t].id
    ensures FromLog(work + [r], lane, log)
  {
    var after := work + [r];
    forall i | 0 <= i < |after| && IsProjection(after[i], lane)
      ensures exists p :: 0 <= p < |log| && DeliversEvent(after, lane, log, i, p)
    {
      if i < |work| {
        var p :| 0 <= p < |log| && DeliversEvent(work, lane, log, i, p);
        assert DeliversEvent(after, lane, log, i, p);
      } else {
        assert DeliversEvent(after, lane, log, i, t);
      }
    }
  }

  /** A row found for an event is the row that delivers it. */
  lemma HasRowMeans(db: Db, lane: LaneKey, log: seq<Event>, t: nat)
    requires Replayable(db, lane, log) && t < |log|
    ensures HasRow(db.work, lane, log[t]) <==> exists i :: 0 <= i < |db.work| && DeliversEvent(db.work, lane, log, i, t)
  {
    var found := FindSource(db.work, Delivery, EventKey(log[t].id, lane));
    if found.Some? {
      assert DeliversEvent(db.work, lane, log, found.value, t);
    }
    if i :| 0 <= i < |db.work| && DeliversEvent(db.work, lane, log, i, t) {
      FoundIs(db, i);
    }
    hide UniqueSources, GoodRows, FromLog, UniqueIds, FindSource;
  }

  /** Queuing an event ahead of every queued one keeps the order. */
  lemma AppendInOrder(db: Db, lane: LaneKey, log: seq<Event>, r: Row, t: nat)
    requires Replayable(db, lane, log) && t < |log| && InLogOrder(db.work, lane, log)
    requires IsProjection(r, lane) && r.source.event == log[t].id
    requires !HasRow(db.work, lane, log[t])
    requires forall i, p :: 0 <= i < |db.work| && t < p < |log| ==> !DeliversEvent(db.work, lane, log, i, p)
    ensures InLogOrder(db.work + [r], lane, log)
  {
    HasRowMeans(db, lane, log, t);
    hide HasRow, FromLog, UniqueSources, GoodRows;
    var after := db.work + [r];
    forall i | 0 <= i < |db.work| && IsProjection(db.work[i], lane)
      ensures Precedes(log, db.work[i].source.event, r.source.event)
    {
      forall p, q | 0 <= p < |log| && 0 <= q < |log| && log[p].id == db.work[i].source.event && log[q].id == log[t].id
        ensures p < q
      {
        assert DeliversEvent(db.work, lane, log, i, p);
        assert q == t;
      }
    }
    forall i, j | 0 <= i < j < |after| && IsProjection(after[i], lane) && IsProjection(after[j], lane)
      ensures Precedes(log, after[i].source.event, after[j].source.event)
    {
      hide Precedes;
    }
  }

  /** More queued sends can only make more echoes. */
  lemma EchoGrows(db: Db, lane: LaneKey, log: seq<Event>, r: Row, t: nat, text: string)
    requires t <= |log| && IsEcho(db.work, log, lane, t, text)
    requires UniqueSources(db.work + [r]) && GoodRows(db.work + [r], db.commands)
    ensures IsEcho(db.work + [r], log, lane, t, text)
  {
    var s :| 0 <= s < t && EchoSource(db.work, log, lane, s, text) && forall m :: s < m < t ==> !TurnBoundary(log[m]);
    var i := FindSource(db.work, Delivery, EventKey(log[s].id, lane)).value;
    assert (db.work + [r])[i] == db.work[i];
    FoundIs(db.(work := db.work + [r]), i);
    assert EchoSource(db.work + [r], log, lane, s, text);
  }

  lemma ProjectsShrinks(db: Db, lane: LaneKey, log: seq<Event>, r: Row, t: nat)
    requires t < |log| && Projects(db.work + [r], log, lane, t)
    requires UniqueSources(db.work + [r]) && GoodRows(db.work + [r], db.commands)
    ensures Projects(db.work, log, lane, t)
  {
    hide IsEcho;
    var text := Trim(Deliverable(log[t]).value);
    if IsEcho(db.work, log, lane, t, text) {
      EchoGrows(db, lane, log, r, t, text);
    }
  }

  // ---- A whole pass -----------------------------------------------------------------------------

  /** Some event from t on is overtaken. */
  predicate SomeOvertaken(work: seq<Row>, lane: LaneKey, log: seq<Event>, t: nat) {
    exists u :: t <= u < |log| && Overtaken(work, lane, log, u)
  }

  /** An event that is not overtaken keeps the order, and overtakes nothing after it. */
  lemma SafeStep(db: Db, lane: LaneKey, log: seq<Event>, t: nat, now: Time)
    requires Replayable(db, lane, log) && t < |log| && !Overtaken(db.work, lane, log, t)
    requires InLogOrder(db.work, lane, log)
    ensures var after := Synced(db, lane, log, t, now);
      && InLogOrder(after.work, lane, log)
      && (SomeOvertaken(after.work, lane, log, t + 1) ==> SomeOvertaken(db.work, lane, log, t + 1))
      && (SomeOvertaken(db.work, lane, log, t + 1) ==> after == db)
  {
    SyncedIs(db, lane, log, t, now);
    SyncedIsReplayable(db, lane, log, t, now);
    var after := Synced(db, lane, log, t, now);
    hide Synced, Projects, InLogOrder, HasRow, FromLog, UniqueSources, GoodRows;
    if after != db {
      var r := DeliveryRow(db, lane, log, t, now);
      AppendInOrder(db, lane, log, r, t);
      if SomeOvertaken(after.work, lane, log, t + 1) {
        var u :| t + 1 <= u < |log| && Overtaken(after.work, lane, log, u);
        OvertakenBefore(db, lane, log, r, t, u);
      }
      if SomeOvertaken(db.work, lane, log, t + 1) {
        hide Overtaken;
        OvertakenAhead(db.work, lane, log, t);
      }
    }
  }

  lemma OvertakenAhead(work: seq<Row>, lane: LaneKey, log: seq<Event>, t: nat)
    requires t < |log| && Projects(work, log, lane, t) && !HasRow(work, lane, log[t])
    requires SomeOvertaken(work, lane, log, t + 1)
    ensures Overtaken(work, lane, log, t)
  {
    hide Projects, HasRow;
    var u :| t + 1 <= u < |log| && Overtaken(work, lane, log, u);
    var i, p :| 0 <= i < |work| && u < p < |log| && DeliversEvent(work, lane, log, i, p);
    assert t < p;
  }

  lemma HasRowStays(db: Db, lane: LaneKey, e: Event, r: Row)
    requires HasRow(db.work, lane, e)
    ensures HasRow(db.work + [r], lane, e)
  {
    var i := FindSource(db.work, Delivery, EventKey(e.id, lane)).value;
    FindSourceComplete(db.work + [r], Delivery, EventKey(e.id, lane), i);
  }

  lemma OvertakenBefore(db: Db, lane: LaneKey, log: seq<Event>, r: Row, t: nat, u: nat)
    requires Replayable(db.(work := db.work + [r]), lane, log) && Replayable(db, lane, log)
    requires t < u < |log| && IsProjection(r, lane) && r.source.event == log[t].id
    requires Overtaken(db.work + [r], lane, log, u)
    ensures Overtaken(db.work, lane, log, u)
  {
    ProjectsShrinks(db, lane, log, r, u);
    assert !HasRow(db.work, lane, log[u]) by {
      if HasRow(db.work, lane, log[u]) { HasRowStays(db, lane, log[u], r); }
    }
    hide Projects, HasRow, FromLog, UniqueSources, GoodRows;
    var i, p :| 0 <= i < |db.work + [r]| && u < p < |log| && DeliversEvent(db.work + [r], lane, log, i, p);
    assert i < |db.work|;
    assert DeliversEvent(db.work, lane, log, i, p);
  }

  /** Queuing an overtaken event breaks the order. */
  lemma OvertakenBreaks(db: Db, lane: LaneKey, log: seq<Event>, t: nat, now: Time)
    requires Replayable(db, lane, log) && t < |log| && Overtaken(db.work, lane, log, t)
    ensures !InLogOrder(Synced(db, lane, log, t, now).work, lane, log)
  {
    SyncedIs(db, lane, log, t, now);
    var after := Synced(db, lane, log, t, now).work;
    var i, p :| 0 <= i < |db.work| && t < p < |log| && DeliversEvent(db.work, lane, log, i, p);
    hide Synced, Projects, HasRow, FromLog, UniqueSources, GoodRows, UniqueIds;
    var j := |db.work|;
    assert IsProjection(after[i], lane) && IsProjection(after[j], lane);
    assert log[p].id == after[i].source.event && log[t].id == after[j].source.event;
    assert !Precedes(log, after[i].source.event, after[j].source.event);
  }

  lemma {:induction false} BrokenStays(db: Db, lane: LaneKey, log: seq<Event>, t: nat, now: Time)
    requires t <= |log| && Replayable(db, lane, log) && !InLogOrder(db.work, lane, log)
    ensures !InLogOrder(Replayed(db, lane, log, t, now).work, lane, log)
    decreases |log| - t
  {
    ReplayedStep(db, lane, log, t, now);
    hide Replayed, Synced, InLogOrder, Replayable;
    if t < |log| {
      BrokenStep(db, lane, log, t, now);
      BrokenStays(Synced(db, lane, log, t, now), lane, log, t + 1, now);
    }
  }

  lemma ReplayedStep(db: Db, lane: LaneKey, log: seq<Event>, t: nat, now: Time)
    requires t <= |log|
    ensures Replayed(db, lane, log, t, now) ==
      if t == |log| then db else Replayed(Synced(db, lane, log, t, now), lane, log, t + 1, now)
  {
    hide Synced;
  }

  lemma BrokenStep(db: Db, lane: LaneKey, log: seq<Event>, t: nat, now: Time)
    requires t < |log| && Replayable(db, lane, log) && !InLogOrder(db.work, lane, log)
    ensures Replayable(Synced(db, lane, log, t, now), lane, log)
    ensures !InLogOrder(Synced(db, lane, log, t, now).work, lane, log)
  {
    SyncedIs(db, lane, log, t, now);
    SyncedIsReplayable(db, lane, log, t, now);
    hide Synced, InLogOrder, Replayable, Projects, HasRow;
    if Synced(db, lane, log, t, now) != db {
      BrokenAppend(db.work, lane, log, DeliveryRow(db, lane, log, t, now));
    }
  }

  lemma BrokenAppend(work: seq<Row>, lane: LaneKey, log: seq<Event>, r: Row)
    requires !InLogOrder(work, lane, log)
    ensures !InLogOrder(work + [r], lane, log)
  {
    hide Precedes;
    var i, j :| 0 <= i < j < |work| && IsProjection(work[i], lane) && IsProjection(work[j], lane) &&
      !Precedes(log, work[i].source.event, work[j].source.event);
    var after := work + [r];
    assert after[i] == work[i] && after[j] == work[j];
  }

  /**
   A pass from t keeps the outbox in log order if and only if no event from t on is overtaken
   before the pass begins. The right-hand side can be read off the outbox and the log.
   */
  lemma {:induction false} ReplayKeepsOrderIff(db: Db, lane: LaneKey, log: seq<Event>, t: nat, now: Time)
    requires t <= |log| && Replayable(db, lane, log) && InLogOrder(db.work, lane, log)
    ensures InLogOrder(Replayed(db, lane, log, t, now).work, lane, log) <==> !SomeOvertaken(db.work, lane, log, t)
    decreases |log| - t
  {
    ReplayedStep(db, lane, log, t, now);
    hide Replayed, Synced, InLogOrder, Overtaken;
    if t < |log| {
      SyncedIsReplayable(db, lane, log, t, now);
      hide Replayable;
      if Overtaken(db.work, lane, log, t) {
        OvertakenBreaks(db, lane, log, t, now);
        BrokenStays(Synced(db, lane, log, t, now), lane, log, t + 1, now);
      } else {
        SafeStep(db, lane, log, t, now);
        ReplayKeepsOrderIff(Synced(db, lane, log, t, now), lane, log, t + 1, now);
        SplitOvertaken(db.work, lane, log, t);
        hide SomeOvertaken;
      }
    }
  }

  lemma SplitOvertaken(work: seq<Row>, lane: LaneKey, log: seq<Event>, t: nat)
    requires t < |log| && !Overtaken(work, lane, log, t)
    ensures SomeOvertaken(work, lane, log, t) <==> SomeOvertaken(work, lane, log, t + 1)
  {
    hide Overtaken;
  }
}
