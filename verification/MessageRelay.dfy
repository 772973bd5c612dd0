/**
 The projector as the program writes it: paged loops over the agent-server's history that write the
 store. The echo scan is proved to be the page-free predicate the step system uses, and one call of
 syncDeliveryOutbox, from any state a crash may have left, to bring the outbox to the one-pass fold.
 */
module MessageRelays {
  import opened Identities
  import opened WorkTable
  import opened WorkInvariants
  import opened CoordinatorInvariants
  import opened AgentEvents
  import opened Relay
  import opened ProjectionFold
  import opened DeliveredEvents
  import opened MessageWorkStores

  /** How a history request ends. */
  datatype Fetch = Served | Absent | Broken

  datatype SyncResult = Unbound | AlreadyParked | CaughtUp | NowParked | Interrupted

  /** `limit` events from `offset`, as the agent-server pages its history. */
  function EventPage(log: seq<Event>, offset: nat, limit: nat): (items: seq<Event>)
    requires offset <= |log|
    ensures offset + |items| <= |log| && items == log[offset..offset + |items|]
    ensures |items| == 0 ==> limit == 0 || offset == |log|
  {
    if offset + limit <= |log| then log[offset..offset + limit] else log[offset..]
  }

  // ---- What a backward scan has ruled out ---------------------------------------------------------

  /** No event of log[from..t] ends the scan. */
  predicate NothingSince(work: seq<Row>, log: seq<Event>, lane: LaneKey, from: nat, t: nat, text: string)
    requires t <= |log|
  {
    forall s :: from <= s < t ==> !TurnBoundary(log[s]) && !EchoSource(work, log, lane, s, text)
  }

  lemma EchoFoundAt(work: seq<Row>, log: seq<Event>, lane: LaneKey, s: nat, t: nat, text: string)
    requires s < t <= |log| && NothingSince(work, log, lane, s + 1, t, text) && EchoSource(work, log, lane, s, text)
    ensures IsEcho(work, log, lane, t, text)
  {
    hide EchoSource, TurnBoundary;
  }

  lemma NoEchoBeyond(work: seq<Row>, log: seq<Event>, lane: LaneKey, s: nat, t: nat, text: string)
    requires s < t <= |log| && NothingSince(work, log, lane, s + 1, t, text) && TurnBoundary(log[s])
    ensures !IsEcho(work, log, lane, t, text)
  {
    BoundaryIsNoSource(work, log, lane, s, text);
    hide EchoSource, TurnBoundary;
  }

  /** An explicit send never ends a turn. */
  lemma BoundaryIsNoSource(work: seq<Row>, log: seq<Event>, lane: LaneKey, s: nat, text: string)
    requires s < |log|
    ensures TurnBoundary(log[s]) ==> !EchoSource(work, log, lane, s, text)
  {
    hide Queued;
  }

  lemma NoEchoAtAll(work: seq<Row>, log: seq<Event>, lane: LaneKey, t: nat, text: string)
    requires t <= |log| && NothingSince(work, log, lane, 0, t, text)
    ensures !IsEcho(work, log, lane, t, text)
  {
    hide EchoSource, TurnBoundary;
  }

  lemma OutboxBound(db: Db, lane: LaneKey, log: seq<Event>, n: nat)
    requires Outbox(db, lane, log, n)
    ensures n <= |log|
  {
  }

  lemma SyncedKeepsTable(db: Db, lane: LaneKey, log: seq<Event>, t: nat, now: Time)
    requires TableInv(db) && t < |log|
    ensures TableInv(Synced(db, lane, log, t, now))
  {
    hide TableInv, Projects, InsertWork;
    if Projects(db.work, log, lane, t) {
      DeliverableWhenProjected(db.work, log, lane, t);
      InsertKeeps(db, Delivery, EventKey(log[t].id, lane), lane, log[t].id, ThreadMessage(Deliverable(log[t]).value),
        now);
    }
  }

  lemma DeliverableWhenProjected(work: seq<Row>, log: seq<Event>, lane: LaneKey, t: nat)
    requires t < |log| && Projects(work, log, lane, t)
    ensures Deliverable(log[t]).Some?
  {
  }

  lemma InsertKeepsRows(db: Db, lane: LaneKey, event: EventId, payload: Payload, now: Time)
    requires GoodRows(db.work, db.commands) && NoneSkipped(db.work, lane)
    ensures var after := InsertWork(db, Delivery, EventKey(event, lane), lane, event, payload, now);
      GoodRows(after.work, after.commands) && NoneSkipped(after.work, lane)
  {
    hide FindSource, MaxSequence;
  }

  /** Processing an event keeps everything the next one relies on. */
  lemma SyncedKeepsOutbox(db: Db, lane: LaneKey, log: seq<Event>, n: nat, t: nat, now: Time)
    requires TableInv(db) && Outbox(db, lane, log, n) && t <= n && t < |log| && lane in db.lanes
    ensures TableInv(Synced(db, lane, log, t, now))
    ensures Outbox(Synced(db, lane, log, t, now), lane, log, if t < n then n else t + 1)
  {
    hide Numbered, HeadOfLine, GoodCommands, GoodRow, UniqueSources, GoodRows, NoneSkipped, Refines, UniqueIds,
      Projects, InsertWork, Deliverable;
    SyncedIsFold(db, lane, log, n, t, now);
    SyncedKeepsTable(db, lane, log, t, now);
    if Projects(db.work, log, lane, t) {
      DeliverableWhenProjected(db.work, log, lane, t);
      InsertKeepsRows(db, lane, log[t].id, ThreadMessage(Deliverable(log[t]).value), now);
    }
  }

  class MessageRelay {
    const store: MessageWorkStore
    const pageSize: nat
    /** How the n-th history request ends. */
    const network: nat -> Fetch

    constructor (store: MessageWorkStore, pageSize: nat, network: nat -> Fetch)
      requires pageSize > 0
      ensures this.store == store && this.pageSize == pageSize && this.network == network
    {
      this.store, this.pageSize, this.network := store, pageSize, network;
    }

    /** No history request fails. */
    ghost predicate AllServed() {
      forall n: nat :: network(n).Served?
    }

    method SearchEvents(log: seq<Event>, offset: nat, limit: nat, request: nat)
        returns (outcome: Fetch, items: seq<Event>)
      requires offset <= |log|
      ensures outcome == network(request)
      ensures items == if outcome.Served? then EventPage(log, offset, limit) else []
    {
      outcome := network(request);
      items := if outcome.Served? then EventPage(log, offset, limit) else [];
    }

    /** One event of the backward scan: None continues, Some ends it. */
    method ScanEvent(lane: LaneKey, text: string, log: seq<Event>, s: nat) returns (verdict: Option<bool>)
      requires s < |log|
      ensures verdict == Some(false) <==> TurnBoundary(log[s])
      ensures verdict == Some(false) <==> BoundsTurn(log[s])
      ensures verdict == Some(true) <==> EchoSource(store.work, log, lane, s, text)
    {
      BoundaryIsNoSource(store.work, log, lane, s, text);
      EventMeans(log[s], text);
      hide BoundsTurn, ExplicitSend, FinalReply, ErrorNotice, SendsSame;
      var event := log[s];
      if (event.MessageEvent? && event.source == FromUser) || TerminalText(event).Some? {
        return Some(false);
      }
      if SendText(event).None? {
        return None;
      }
      var queued := store.Lookup(Delivery, EventKey(event.id, lane));
      if queued.Some? {
        var r := store.work[queued.value];
        if r.state != Skipped && DeliveryText(r.payload) == Some(text) {
          return Some(true);
        }
      }
      return None;
    }

    /**
     Consults history and outbox page by page, backwards. Whatever the page size, the answer is
     whether the turn that event t ends already queued this text; None is a request that failed.
     */
    method IsQueuedFinalEcho(lane: LaneKey, text: string, log: seq<Event>, beforePage: nat, earlier: seq<Event>,
                             request: nat)
      returns (echo: Option<bool>, next: nat)
      requires pageSize > 0
      requires beforePage + |earlier| <= |log| && earlier == log[beforePage..beforePage + |earlier|]
      ensures echo.Some? ==> echo.value == IsEcho(store.work, log, lane, beforePage + |earlier|, text)
      ensures echo.None? ==> next > request && !network(next - 1).Served?
    {
      hide EchoSource, TurnBoundary, IsEcho;
      ghost var t := beforePage + |earlier|;
      var events: seq<Event>, end: nat := earlier, beforePage;
      next := request;
      while true
        invariant next >= request
        invariant end + |events| <= t && events == log[end..end + |events|]
        invariant NothingSince(store.work, log, lane, end + |events|, t, text)
        decreases end
      {
        var index := |events|;
        while index > 0
          invariant 0 <= index <= |events|
          invariant NothingSince(store.work, log, lane, end + index, t, text)
        {
          index := index - 1;
          var verdict := ScanEvent(lane, text, log, end + index);
          if verdict == Some(false) {
            NoEchoBeyond(store.work, log, lane, end + index, t, text);
            return verdict, next;
          }
          if verdict == Some(true) {
            EchoFoundAt(store.work, log, lane, end + index, t, text);
            return verdict, next;
          }
        }
        if end == 0 {
          NoEchoAtAll(store.work, log, lane, t, text);
          return Some(false), next;
        }
        var start := if end > pageSize then end - pageSize else 0;
        var outcome, items := SearchEvents(log, start, end - start, next);
        next := next + 1;
        if !outcome.Served? {
          return None, next;
        }
        events, end := items, start;
      }
    }

    /** One event of the page at `offset`: queue its delivery unless it is a final echo. */
    method ProjectEvent(lane: LaneKey, log: seq<Event>, offset: nat, index: nat, now: Time, request: nat)
      returns (created: Option<nat>, next: nat)
      requires store.Valid() && pageSize > 0 && offset + index < |log| && lane in store.lanes
      modifies store`work
      ensures created.Some? ==> store.State() == Synced(old(store.State()), lane, log, offset + index, now)
      ensures created.Some? ==> |store.work| == |old(store.work)| + created.value && old(store.work) <= store.work
      ensures created.None? ==> store.work == old(store.work)
      ensures AllServed() ==> created.Some?
      ensures store.Valid()
    {
      hide TableInv, IsEcho, Deliverable, TerminalText, Trim;
      var event := log[offset + index];
      var intent := Deliverable(event);
      next := request;
      if intent.None? {
        return Some(0), next;
      }
      if TerminalText(event).Some? {
        var echo;
        echo, next := IsQueuedFinalEcho(lane, Trim(intent.value), log, offset, log[offset..offset + index], request);
        if echo.None? {
          return None, next;
        }
        if echo.value {
          return Some(0), next;
        }
      }
      var source := EventKey(event.id, lane);
      var before := store.Lookup(Delivery, source);
      var id := store.InsertWork(Delivery, source, lane, event.id, ThreadMessage(intent.value), now);
      created := Some(if before.None? then 1 else 0);
    }

    /** The events of one page in order; `complete` is false when a request failed on the way. */
    method ProjectPage(lane: LaneKey, log: seq<Event>, offset: nat, size: nat, now: Time, request: nat, ghost n: nat)
      returns (complete: bool, created: nat, next: nat, ghost m: nat)
      requires store.Valid() && pageSize > 0 && lane in store.lanes && offset + size <= |log|
      requires Outbox(store.State(), lane, log, n) && offset <= n
      modifies store`work
      ensures store.Valid() && n <= m && Outbox(store.State(), lane, log, m)
      ensures complete ==> offset + size <= m
      ensures AllServed() ==> complete
      ensures old(store.work) <= store.work && created == |store.work| - |old(store.work)|
    {
      hide TableInv, Outbox, Synced;
      created, next, m := 0, request, n;
      for index := 0 to size
        invariant store.Valid() && n <= m && offset + index <= m && Outbox(store.State(), lane, log, m)
        invariant old(store.work) <= store.work && created == |store.work| - |old(store.work)|
      {
        SyncedKeepsOutbox(store.State(), lane, log, m, offset + index, now);
        var inserted;
        inserted, next := ProjectEvent(lane, log, offset, index, now, next);
        if inserted.None? {
          return false, created, next, m;
        }
        created := created + inserted.value;
        m := if offset + index < m then m else offset + index + 1;
      }
      complete := true;
    }

    /**
     One catch-up call. `n` is how far any earlier call got before it crashed or failed; `m` is how far
     this one got. Whatever fails on the way, the outbox is the one-pass fold of the first m events.
     */
    method SyncDeliveryOutbox(lane: LaneKey, log: seq<Event>, now: Time, ghost n: nat)
      returns (result: SyncResult, created: nat, ghost m: nat)
      requires store.Valid() && pageSize > 0
      requires Outbox(store.State(), lane, log, n) && CursorOf(store.State(), lane) <= n
      modifies store`work, store`cursors
      ensures store.Valid() && n <= m && Outbox(store.State(), lane, log, m) && CursorOf(store.State(), lane) <= m
      ensures m <= |log| && SaysExactly(store.work, lane, log, m)
      ensures result.CaughtUp? ==> m == |log| && CursorOf(store.State(), lane) == |log|
      ensures old(store.work) <= store.work && created == |store.work| - |old(store.work)|
      ensures result.Unbound? <==> lane !in store.lanes
      ensures result.AlreadyParked? <==> lane in store.lanes && Parked(old(store.State()), lane)
      ensures AllServed() ==> !result.Interrupted?
      ensures (forall n: nat :: !network(n).Absent?) ==> !result.NowParked?
      ensures result.Unbound? || result.AlreadyParked? || result.NowParked? || !network(0).Absent?
      ensures lane in store.lanes ==>
        (Parked(store.State(), lane) <==> result.AlreadyParked? || result.NowParked?)
      ensures result.Unbound? || result.AlreadyParked? ==> store.State() == old(store.State())
    {
      hide TableInv, UniqueSources, GoodRows, NoneSkipped, Refines, UniqueIds, EventPage;
      created, m := 0, n;
      hide SaysExactly;
      OutboxMeans(store.State(), lane, log, n);
      if lane !in store.lanes {
        return Unbound, created, m;
      }
      if lane in store.cursors && store.cursors[lane].parked {
        return AlreadyParked, created, m;
      }
      var offset := if lane in store.cursors && store.cursors[lane].next.Some? then store.cursors[lane].next.value
        else 0;
      var request := 0;
      while true
        invariant store.Valid() && lane in store.lanes && !Parked(store.State(), lane)
        invariant request == 0 || !network(0).Absent?
        invariant offset == CursorOf(store.State(), lane) <= m <= |log| && n <= m && Outbox(store.State(), lane, log, m)
        invariant old(store.work) <= store.work && created == |store.work| - |old(store.work)|
        decreases |log| - offset
      {
        var outcome, items := SearchEvents(log, offset, pageSize, request);
        OutboxMeans(store.State(), lane, log, m);
        if outcome.Absent? {
          store.ParkCursor(lane);
          return NowParked, created, m;
        }
        if outcome.Broken? {
          return Interrupted, created, m;
        }
        var complete, inserted;
        complete, inserted, request, m := ProjectPage(lane, log, offset, |items|, now, request + 1, m);
        created := created + inserted;
        OutboxMeans(store.State(), lane, log, m);
        if !complete {
          return Interrupted, created, m;
        }
        offset := offset + |items|;
        store.SetCursor(lane, offset);
        if offset >= |log| {
          return CaughtUp, created, m;
        }
      }
    }
  }
}
