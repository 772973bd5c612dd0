/**
 What the outbox should hold: one pass over a log, with no pages, crashes or rows, and the facts that
 tie one projector step on the outbox to one step of that pass.
 */
module ProjectionFold {
  import opened Identities
  import opened WorkTable
  import opened WorkInvariants
  import opened CoordinatorInvariants
  import opened AgentEvents
  import opened Relay

  datatype Item = Item(event: EventId, payload: Payload)

  // ---- The one-pass fold ------------------------------------------------------------------------

  /** An explicit send of this text earlier in the same turn. */
  predicate SaidEarlier(log: seq<Event>, t: nat, text: string)
    requires t <= |log|
  {
    exists s :: 0 <= s < t && SendText(log[s]).Some? && Trim(SendText(log[s]).value) == text &&
      forall m :: s < m < t ==> !TurnBoundary(log[m])
  }

  /** Event t is delivered: it says something, and is not the final echo of an explicit send. */
  predicate Delivers(log: seq<Event>, t: nat)
    requires t < |log|
  {
    && Deliverable(log[t]).Some?
    && !(TerminalText(log[t]).Some? && SaidEarlier(log, t, Trim(Deliverable(log[t]).value)))
  }

  function ItemAt(log: seq<Event>, t: nat): Item
    requires t < |log| && Deliverable(log[t]).Some?
  {
    Item(log[t].id, ThreadMessage(Deliverable(log[t]).value))
  }

  /** The deliveries of the first n events. */
  function Fold(log: seq<Event>, n: nat): seq<Item>
    requires n <= |log|
  {
    if n == 0 then []
    else Fold(log, n - 1) + (if Delivers(log, n - 1) then [ItemAt(log, n - 1)] else [])
  }

  lemma SaidEarlierPrefix(log: seq<Event>, e: Event, t: nat, text: string)
    requires t <= |log|
    ensures SaidEarlier(log + [e], t, text) == SaidEarlier(log, t, text)
  {
    var longer := log + [e];
    if SaidEarlier(log, t, text) {
      var s :| 0 <= s < t && SendText(log[s]).Some? && Trim(SendText(log[s]).value) == text &&
        forall m :: s < m < t ==> !TurnBoundary(log[m]);
      assert longer[s] == log[s];
    }
    if SaidEarlier(longer, t, text) {
      var s :| 0 <= s < t && SendText(longer[s]).Some? && Trim(SendText(longer[s]).value) == text &&
        forall m :: s < m < t ==> !TurnBoundary(longer[m]);
      assert log[s] == longer[s];
      assert forall m :: s < m < t ==> longer[m] == log[m];
    }
    hide SendText, TurnBoundary, Trim;
  }

  lemma {:induction false} FoldPrefix(log: seq<Event>, e: Event, n: nat)
    requires n <= |log|
    ensures Fold(log + [e], n) == Fold(log, n)
  {
    if n > 0 {
      FoldPrefix(log, e, n - 1);
      hide Deliverable, TerminalText, SaidEarlier;
      assert (log + [e])[n - 1] == log[n - 1];
      if Deliverable(log[n - 1]).Some? {
        SaidEarlierPrefix(log, e, n - 1, Trim(Deliverable(log[n - 1]).value));
      }
    }
  }

  lemma {:induction false} FoldHas(log: seq<Event>, n: nat, t: nat)
    requires t < n <= |log| && Delivers(log, t)
    ensures ItemAt(log, t) in Fold(log, n)
  {
    hide Delivers, ItemAt;
    if t < n - 1 {
      FoldHas(log, n - 1, t);
    }
  }

  lemma {:induction false} FoldFrom(log: seq<Event>, n: nat, item: Item) returns (t: nat)
    requires n <= |log| && item in Fold(log, n)
    ensures t < n && Delivers(log, t) && item == ItemAt(log, t)
  {
    hide Delivers, ItemAt;
    if item in Fold(log, n - 1) {
      t := FoldFrom(log, n - 1, item);
    } else {
      t := n - 1;
    }
  }

  // ---- The outbox -------------------------------------------------------------------------------

  predicate IsProjection(r: Row, lane: LaneKey) {
    r.source.EventKey? && r.source.lane == lane
  }

  /** The deliveries the projector has queued for a lane, in queue order. */
  function Projected(work: seq<Row>, lane: LaneKey): seq<Item> {
    if work == [] then []
    else
      var last := work[|work| - 1];
      Projected(work[..|work| - 1], lane) +
      (if IsProjection(last, lane) then [Item(last.source.event, last.payload)] else [])
  }

  lemma ProjectedAppend(work: seq<Row>, r: Row, lane: LaneKey)
    ensures Projected(work + [r], lane) ==
      Projected(work, lane) + (if IsProjection(r, lane) then [Item(r.source.event, r.payload)] else [])
  {
    assert (work + [r])[..|work|] == work;
  }

  lemma {:induction false} ProjectedSame(a: seq<Row>, b: seq<Row>, lane: LaneKey)
    requires |a| <= |b| && forall i :: 0 <= i < |a| ==> SameIdentity(a[i], b[i])
    requires forall i :: |a| <= i < |b| ==> !IsProjection(b[i], lane)
    ensures Projected(b, lane) == Projected(a, lane)
  {
    if |b| > |a| {
      ProjectedSame(a, b[..|b| - 1], lane);
    } else if a != [] {
      assert SameIdentity(a[|a| - 1], b[|b| - 1]);
      ProjectedSame(a[..|a| - 1], b[..|b| - 1], lane);
    }
  }

  lemma {:induction false} ProjectedHas(work: seq<Row>, lane: LaneKey, i: nat)
    requires i < |work| && IsProjection(work[i], lane)
    ensures Item(work[i].source.event, work[i].payload) in Projected(work, lane)
  {
    if i < |work| - 1 {
      ProjectedHas(work[..|work| - 1], lane, i);
    }
  }

  lemma {:induction false} ProjectedFrom(work: seq<Row>, lane: LaneKey, item: Item) returns (i: nat)
    requires item in Projected(work, lane)
    ensures i < |work| && IsProjection(work[i], lane) && item == Item(work[i].source.event, work[i].payload)
  {
    if item in Projected(work[..|work| - 1], lane) {
      i := ProjectedFrom(work[..|work| - 1], lane, item);
    } else {
      i := |work| - 1;
    }
  }

  /** The row a source key finds is the only one. */
  lemma FoundIs(db: Db, i: nat)
    requires UniqueSources(db.work) && GoodRows(db.work, db.commands) && i < |db.work| && db.work[i].source.EventKey?
    ensures FindSource(db.work, Delivery, db.work[i].source) == Some(i)
  {
    assert GoodSource(db.work[i], db.commands);
    FindSourceComplete(db.work, Delivery, db.work[i].source, i);
    hide GoodRows;
  }

  // ---- One projector step is one fold step ------------------------------------------------------

  predicate NoneSkipped(work: seq<Row>, lane: LaneKey) {
    forall i :: 0 <= i < |work| && IsProjection(work[i], lane) ==> work[i].state != Skipped
  }

  /** The outbox of a lane is the fold of the first n events of its log. */
  predicate Refines(work: seq<Row>, lane: LaneKey, log: seq<Event>, n: nat) {
    n <= |log| && Projected(work, lane) == Fold(log, n)
  }

  predicate Outbox(db: Db, lane: LaneKey, log: seq<Event>, n: nat) {
    && UniqueSources(db.work) && GoodRows(db.work, db.commands) && UniqueIds(log)
    && NoneSkipped(db.work, lane)
    && Refines(db.work, lane, log, n)
  }

  /** A send among the processed events is queued with its own text. */
  lemma SendIsQueued(db: Db, lane: LaneKey, log: seq<Event>, n: nat, s: nat, text: string)
    requires Outbox(db, lane, log, n) && s < n && SendText(log[s]).Some?
    ensures Queued(db.work, lane, log[s].id, text) <==> Trim(SendText(log[s]).value) == text
  {
    assert TerminalText(log[s]).None?;
    FoldHas(log, n, s);
    var i := ProjectedFrom(db.work, lane, ItemAt(log, s));
    FoundIs(db, i);
    hide Trim, Fold, Projected, UniqueSources, GoodRows, UniqueIds;
  }

  /** The projector's echo test, which reads the outbox, agrees with the fold's, which reads the log. */
  lemma EchoAgrees(db: Db, lane: LaneKey, log: seq<Event>, n: nat, t: nat, text: string)
    requires Outbox(db, lane, log, n) && t <= n
    ensures IsEcho(db.work, log, lane, t, text) <==> SaidEarlier(log, t, text)
  {
    assert n <= |log|;
    hide Trim, Queued, Outbox, SendText, TurnBoundary;
    if IsEcho(db.work, log, lane, t, text) {
      var s :| 0 <= s < t && EchoSource(db.work, log, lane, s, text) && forall m :: s < m < t ==> !TurnBoundary(log[m]);
      SendIsQueued(db, lane, log, n, s, text);
    }
    if SaidEarlier(log, t, text) {
      var s :| 0 <= s < t && SendText(log[s]).Some? && Trim(SendText(log[s]).value) == text &&
        forall m :: s < m < t ==> !TurnBoundary(log[m]);
      SendIsQueued(db, lane, log, n, s, text);
      assert EchoSource(db.work, log, lane, s, text);
    }
  }

  lemma DecisionAgrees(db: Db, lane: LaneKey, log: seq<Event>, n: nat, t: nat)
    requires Outbox(db, lane, log, n) && t <= n && t < |log|
    ensures Projects(db.work, log, lane, t) <==> Delivers(log, t)
  {
    if Deliverable(log[t]).Some? {
      EchoAgrees(db, lane, log, n, t, Trim(Deliverable(log[t]).value));
    }
    hide Outbox, IsEcho, SaidEarlier, Deliverable, TerminalText, Trim;
  }

  lemma ProjectionIsOfSeenEvent(db: Db, lane: LaneKey, log: seq<Event>, n: nat, i: nat) returns (u: nat)
    requires Outbox(db, lane, log, n) && i < |db.work| && IsProjection(db.work[i], lane)
    ensures u < n <= |log| && Delivers(log, u) && log[u].id == db.work[i].source.event
  {
    ProjectedHas(db.work, lane, i);
    u := FoldFrom(log, n, Item(db.work[i].source.event, db.work[i].payload));
    hide Delivers;
  }

  /** Among the processed events, exactly the delivered ones have a row. */
  lemma RowExists(db: Db, lane: LaneKey, log: seq<Event>, n: nat, t: nat)
    requires Outbox(db, lane, log, n) && t < |log| && Delivers(log, t)
    ensures FindSource(db.work, Delivery, EventKey(log[t].id, lane)).Some? <==> t < n
  {
    var found := FindSource(db.work, Delivery, EventKey(log[t].id, lane));
    if t < n {
      FoldHas(log, n, t);
      var i := ProjectedFrom(db.work, lane, ItemAt(log, t));
      FoundIs(db, i);
    } else if found.Some? {
      var u := ProjectionIsOfSeenEvent(db, lane, log, n, found.value);
    }
    hide UniqueSources, GoodRows, Fold, Projected, Delivers, FindSource;
  }

  /** What one SyncEvent does to the store. */
  function Synced(db: Db, lane: LaneKey, log: seq<Event>, t: nat, now: Time): Db
    requires t < |log|
  {
    if Projects(db.work, log, lane, t) then
      InsertWork(db, Delivery, EventKey(log[t].id, lane), lane, log[t].id, ThreadMessage(Deliverable(log[t]).value),
        now)
    else db
  }

  /** Processing event t <= n, for the first time or again, leaves the fold of the events seen. */
  lemma SyncedIsFold(db: Db, lane: LaneKey, log: seq<Event>, n: nat, t: nat, now: Time)
    requires Outbox(db, lane, log, n) && t <= n && t < |log| && lane in db.lanes
    ensures Refines(Synced(db, lane, log, t, now).work, lane, log, if t < n then n else t + 1)
  {
    DecisionAgrees(db, lane, log, n, t);
    if Delivers(log, t) {
      RowExists(db, lane, log, n, t);
      if t == n {
        ProjectedAppend(db.work, NewRow(db.work, Delivery, EventKey(log[t].id, lane), lane, log[t].id,
                                        ThreadMessage(Deliverable(log[t]).value), now), lane);
      }
    }
    hide FindSource, Delivers, Projects, Projected, MaxSequence, Deliverable, UniqueSources, GoodRows, UniqueIds,
      NoneSkipped;
  }
}
