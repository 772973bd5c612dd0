/**
 A whole run in which a lane's send marks leave event-log order: an agent says "a", finishes with its
 echo, and says "b". The first pass over the log crashes before its commit, sending "a" fails, the
 operator skips it, "b" is sent, and the replay then queues and sends the echo that was suppressed.
 */
module RelayReorder {
  import opened Identities
  import opened WorkTable
  import opened WorkInvariants
  import opened AgentEvents
  import opened Relay
  import opened ReplayOrder

  const LANE := Chat(0)
  const LOG := [ActionEvent(Agent(0), SendMessage, Some("a")),
                ObservationEvent(Agent(1), Finish, Agent(0), Some("a"), false),
                ActionEvent(Agent(2), SendMessage, Some("b"))]

  const STORY := [
    MeetLane(LANE, Lane(0, 0)), AgentEmits(LANE, LOG[0]), AgentEmits(LANE, LOG[1]), AgentEmits(LANE, LOG[2]),
    SyncFetch(LANE, 3), SyncEvent(LANE), SyncEvent(LANE), SyncEvent(LANE), SyncAbort(LANE),
    DeliveryClaim(0, 0), DeliveryReject(0), SkipWork(0),
    DeliveryClaim(0, 1), DeliveryMark(0), SendLands(0), DeliverySettle(0, None),
    SyncFetch(LANE, 3), SyncEvent(LANE), SyncEvent(LANE),
    DeliveryClaim(0, 2), DeliveryMark(0)]

  function Steps(): seq<Occurrence> {
    seq(|STORY|, i requires 0 <= i < |STORY| => At(STORY[i], 0))
  }

  // ---- The rows as the story moves them ---------------------------------------------------------------

  function InQueue(event: nat, sequence: nat, text: string): Row {
    Row(Delivery, EventKey(Agent(event), LANE), LANE, sequence, Agent(event), Ready, 0, None, None, 0, 0, false, None,
        ThreadMessage(text))
  }

  const A0 := InQueue(0, 1, "a")
  const B0 := InQueue(2, 2, "b")
  const ECHO := InQueue(1, 3, "a")

  function Held(policy: Policy, r: Row): Row {
    ClaimedRow(policy, r, 0, 0)
  }

  function Withdrawn(policy: Policy): Row {
    Unclaimed(Held(policy, A0), Failed).(state := WorkState.Skipped)
  }

  function Delivered(policy: Policy): Row {
    Unclaimed(Held(policy, B0).(sendAttempted := true), Done)
  }

  // ---- The worlds it passes through -----------------------------------------------------------------

  function Talking(logs: map<LaneKey, seq<Event>>, projectors: map<LaneKey, Projector>): World {
    World(Db(map[LANE := Lane(0, 0)], [], map[], map[]), logs, [Idle], [], {}, projectors,
          multiset{}, multiset{}, {}, multiset{}, multiset{}, [], multiset{}, multiset{}, map[])
  }

  function Staged(work: seq<Row>, d: Dispatcher, p: Projector, pending: multiset<nat>, sent: multiset<nat>,
                  marks: seq<nat>, seen: nat): World
  {
    World(Db(map[LANE := Lane(0, 0)], work, map[], map[]), map[LANE := LOG], [d], [], {}, map[LANE := p],
          pending, sent, {}, multiset{}, multiset{}, marks, multiset{}, multiset{}, map[LANE := seen])
  }

  function Quiet(work: seq<Row>, d: Dispatcher, p: Projector, seen: nat): World {
    Staged(work, d, p, multiset{}, multiset{}, [], seen)
  }

  /** The world after the first n steps. */
  function Scene(policy: Policy, n: nat): World
    requires n <= |STORY|
  {
    var a, b := Held(policy, A0), Held(policy, B0);
    var gone, done := Withdrawn(policy), Delivered(policy);
    var marked := b.(sendAttempted := true);
    if n == 0 then Initial(1, 0)
    else if n == 1 then Talking(map[], map[])
    else if n == 2 then Talking(map[LANE := LOG[..1]], map[])
    else if n == 3 then Talking(map[LANE := LOG[..2]], map[])
    else if n == 4 then Talking(map[LANE := LOG], map[])
    else if n == 5 then Talking(map[LANE := LOG], map[LANE := Page(0, 3, 0)])
    else if n == 6 then Quiet([A0], Idle, Page(0, 3, 1), 1)
    else if n == 7 then Quiet([A0], Idle, Page(0, 3, 2), 2)
    else if n == 8 then Quiet([A0, B0], Idle, Page(0, 3, 3), 3)
    else if n == 9 then Quiet([A0, B0], Idle, Off, 3)
    else if n == 10 then Quiet([a, B0], Holding(Token(0, 1)), Off, 3)
    else if n == 11 then Quiet([Unclaimed(a, Failed), B0], Idle, Off, 3)
    else if n == 12 then Quiet([gone, B0], Idle, Off, 3)
    else if n == 13 then Quiet([gone, b], Holding(Token(1, 1)), Off, 3)
    else if n == 14 then Staged([gone, marked], Sending(Token(1, 1)), Off, multiset{1}, multiset{}, [1], 3)
    else if n == 15 then Staged([gone, marked], Returned(Token(1, 1)), Off, multiset{}, multiset{1}, [1], 3)
    else if n == 16 then Staged([gone, done], Idle, Off, multiset{}, multiset{1}, [1], 3)
    else if n == 17 then Staged([gone, done], Idle, Page(0, 3, 0), multiset{}, multiset{1}, [1], 3)
    else if n == 18 then Staged([gone, done], Idle, Page(0, 3, 1), multiset{}, multiset{1}, [1], 3)
    else if n == 19 then Staged([gone, done, ECHO], Idle, Page(0, 3, 2), multiset{}, multiset{1}, [1], 3)
    else if n == 20 then Staged([gone, done, Held(policy, ECHO)], Holding(Token(2, 1)), Page(0, 3, 2), multiset{},
      multiset{1}, [1], 3)
    else Staged([gone, done, Held(policy, ECHO).(sendAttempted := true)], Sending(Token(2, 1)), Page(0, 3, 2),
                multiset{2}, multiset{1}, [1, 2], 3)
  }

  // ---- What one step of each kind does ------------------------------------------------------------------

  /** A world with these components is the next one. */
  lemma Becomes(policy: Policy, w: World, step: Step, next: World)
    requires Enabled(w, step, 0)
    requires next.db == DbAfter(policy, w, step, 0)
    requires next.logs == NextLogs(w, step, 0)
    requires next.dispatchers == NextDispatchers(w, step, 0)
    requires next.intakeWorkers == NextIntakeWorkers(w, step, 0)
    requires next.operations == NextOperations(w, step, 0)
    requires next.projectors == NextProjectors(w, step, 0)
    requires next.pendingSends == Minus(Plus(w.pendingSends, IdOf(Marked(w, step, 0))), Landed(w, step, 0))
    requires next.sends == Plus(w.sends, Landed(w, step, 0))
    requires next.pendingAppends == NextAppends(w, step, 0)
    requires Started(w, step, 0).None? && Condensed(step).None? && Requeued(w, step).None?
    requires next.pendingCondenses == w.pendingCondenses && next.condenses == w.condenses
    requires next.marks == if Marked(w, step, 0).Some? then w.marks + [Marked(w, step, 0).value.id] else w.marks
    requires next.requeues == w.requeues && next.starts == w.starts
    requires next.frontier == NextFrontier(w, step, 0)
    ensures Next(policy, w, At(step, 0)) == next
  {
    hide Enabled, DbAfter, NextLogs, NextDispatchers, NextIntakeWorkers, NextOperations, NextProjectors, NextAppends,
      NextFrontier, Marked, Landed, Started, Condensed, Requeued;
  }

  lemma Meets(policy: Policy, w: World)
    requires LANE !in w.db.lanes
    ensures Next(policy, w, At(MeetLane(LANE, Lane(0, 0)), 0)) ==
      w.(db := w.db.(lanes := w.db.lanes[LANE := Lane(0, 0)]))
  {
    hide Next, Taken;
    Becomes(policy, w, MeetLane(LANE, Lane(0, 0)),
            w.(db := w.db.(lanes := w.db.lanes[LANE := Lane(0, 0)])));
  }

  lemma Emits(policy: Policy, w: World, e: Event)
    requires LANE in w.db.lanes && e.id.Agent? && !InLog(LogOf(w, LANE), e.id)
    ensures Next(policy, w, At(AgentEmits(LANE, e), 0)) == w.(logs := w.logs[LANE := LogOf(w, LANE) + [e]])
  {
    hide Next, Taken;
    Becomes(policy, w, AgentEmits(LANE, e),
            w.(logs := w.logs[LANE := LogOf(w, LANE) + [e]]));
  }

  lemma Fetches(policy: Policy, w: World)
    requires LANE in w.db.lanes && ProjectorOf(w, LANE).Off? && |LogOf(w, LANE)| == 3
    requires CursorOf(w.db, LANE) == 0 && !Parked(w.db, LANE)
    ensures Next(policy, w, At(SyncFetch(LANE, 3), 0)) == w.(projectors := w.projectors[LANE := Page(0, 3, 0)])
  {
    hide Next, Taken;
    Becomes(policy, w, SyncFetch(LANE, 3),
            w.(projectors := w.projectors[LANE := Page(0, 3, 0)]));
  }

  lemma Aborts(policy: Policy, w: World)
    requires ProjectorOf(w, LANE).Page?
    ensures Next(policy, w, At(SyncAbort(LANE), 0)) == w.(projectors := w.projectors[LANE := Off])
  {
    hide Next, Taken;
    Becomes(policy, w, SyncAbort(LANE),
            w.(projectors := w.projectors[LANE := Off]));
  }

  /** The frontier moves when an event is processed for the first time. */
  function Seen(w: World, t: nat): map<LaneKey, nat> {
    if FrontierOf(w, LANE) <= t then w.frontier[LANE := t + 1] else w.frontier
  }

  lemma ProjectsSomething(w: World, t: nat)
    requires t < |LogOf(w, LANE)|
    ensures Projects(w.db.work, LogOf(w, LANE), LANE, t) ==> Deliverable(LogOf(w, LANE)[t]).Some?
  {
  }

  lemma Processes(policy: Policy, w: World, t: nat)
    requires LANE in w.projectors && w.projectors[LANE] == Page(0, 3, t) && t < 3 && |LogOf(w, LANE)| == 3
    requires LANE in w.db.lanes
    ensures Next(policy, w, At(SyncEvent(LANE), 0)) ==
      w.(db := if Projects(w.db.work, LogOf(w, LANE), LANE, t) then
                 InsertWork(w.db, Delivery, EventKey(LogOf(w, LANE)[t].id, LANE), LANE, LogOf(w, LANE)[t].id,
                            ThreadMessage(Deliverable(LogOf(w, LANE)[t]).value), 0)
               else w.db,
         projectors := w.projectors[LANE := Page(0, 3, t + 1)], frontier := Seen(w, t))
  {
    hide Next, Taken, Projects, Deliverable, InsertWork;
    assert Projects(w.db.work, LogOf(w, LANE), LANE, t) ==>
      Deliverable(LogOf(w, LANE)[t]).Some? by { ProjectsSomething(w, t); }
    Becomes(policy, w, SyncEvent(LANE),
            w.(db := if Projects(w.db.work, LogOf(w, LANE), LANE, t) then
                       InsertWork(w.db, Delivery, EventKey(LogOf(w, LANE)[t].id, LANE), LANE, LogOf(w, LANE)[t].id,
                                  ThreadMessage(Deliverable(LogOf(w, LANE)[t]).value), 0)
                     else w.db,
               projectors := w.projectors[LANE := Page(0, 3, t + 1)], frontier := Seen(w, t)));
  }

  lemma ClaimsRow(policy: Policy, w: World, id: nat)
    requires w.dispatchers == [Idle] && Claimable(w.db.work, Some(Delivery), 0, id)
    ensures id < |w.db.work|
    ensures Next(policy, w, At(DeliveryClaim(0, id), 0)) ==
      w.(db := Claim(policy, w.db, id, 0, 0), dispatchers := [Holding(Token(id, w.db.work[id].generation + 1))])
  {
    hide Next, Taken;
    ClaimableIsRow(w, id);
    Becomes(policy, w, DeliveryClaim(0, id),
            w.(db := Claim(policy, w.db, id, 0, 0), dispatchers := [Holding(Token(id, w.db.work[id].generation + 1))]));
  }

  lemma ClaimableIsRow(w: World, id: nat)
    requires Claimable(w.db.work, Some(Delivery), 0, id)
    ensures id < |w.db.work|
  {
  }

  lemma Rejects(policy: Policy, w: World, t: Token)
    requires w.dispatchers == [Holding(t)]
    ensures Next(policy, w, At(DeliveryReject(0), 0)) ==
      w.(db := Settle(policy, w.db, t, Fail, 0), dispatchers := [Idle])
  {
    hide Next, Taken;
    Becomes(policy, w, DeliveryReject(0),
            w.(db := Settle(policy, w.db, t, Fail, 0), dispatchers := [Idle]));
  }

  lemma Skips(policy: Policy, w: World, id: nat)
    ensures Next(policy, w, At(SkipWork(id), 0)) == w.(db := Skip(w.db, id))
  {
    hide Next, Taken;
    Becomes(policy, w, SkipWork(id),
            w.(db := Skip(w.db, id)));
  }

  lemma Marks(policy: Policy, w: World, t: Token)
    requires w.dispatchers == [Holding(t)] && Live(w.db, t)
    ensures Next(policy, w, At(DeliveryMark(0), 0)) ==
      w.(db := MarkSending(w.db, t), dispatchers := [Sending(t)], pendingSends := w.pendingSends + multiset{t.id},
         marks := w.marks + [t.id])
  {
    hide Next, Taken;
    Becomes(policy, w, DeliveryMark(0),
            w.(db := MarkSending(w.db, t), dispatchers := [Sending(t)], pendingSends := w.pendingSends + multiset{t.id},
               marks := w.marks + [t.id]));
  }

  lemma LandsCount(w: World, t: Token)
    requires w.dispatchers == [Sending(t)] && t.id in w.pendingSends
    ensures Minus(Plus(w.pendingSends, IdOf(Marked(w, SendLands(0), 0))), Landed(w, SendLands(0), 0)) ==
      w.pendingSends - multiset{t.id}
    ensures Plus(w.sends, Landed(w, SendLands(0), 0)) == w.sends + multiset{t.id}
    ensures Marked(w, SendLands(0), 0).None?
  {
  }

  lemma Lands(policy: Policy, w: World, t: Token)
    requires w.dispatchers == [Sending(t)] && t.id in w.pendingSends
    ensures Next(policy, w, At(SendLands(0), 0)) ==
      w.(dispatchers := [Returned(t)], pendingSends := w.pendingSends - multiset{t.id},
        sends := w.sends + multiset{t.id})
  {
    hide Next, Taken, Plus, Minus, Marked, Landed;
    LandsCount(w, t);
    Becomes(policy, w, SendLands(0),
            w.(dispatchers := [Returned(t)], pendingSends := w.pendingSends - multiset{t.id},
              sends := w.sends + multiset{t.id}));
  }

  lemma Settles(policy: Policy, w: World, t: Token)
    requires w.dispatchers == [Returned(t)]
    ensures Next(policy, w, At(DeliverySettle(0, None), 0)) ==
      w.(db := Settle(policy, w.db, t, Sent(None), 0), dispatchers := [Idle])
  {
    hide Next, Taken;
    Becomes(policy, w, DeliverySettle(0, None),
            w.(db := Settle(policy, w.db, t, Sent(None), 0), dispatchers := [Idle]));
  }

  // ---- The story ------------------------------------------------------------------------------------------

  predicate Plays(policy: Policy, n: nat)
    requires n < |STORY|
  {
    Next(policy, Scene(policy, n), At(STORY[n], 0)) == Scene(policy, n + 1)
  }

  lemma Arrives(policy: Policy)
    ensures Plays(policy, 0)
  {
    hide Next;
    Meets(policy, Scene(policy, 0));
  }

  lemma Speaks(policy: Policy, n: nat)
    requires 1 <= n <= 3
    ensures Plays(policy, n)
  {
    hide Next;
    Emits(policy, Scene(policy, n), LOG[n - 1]);
    assert LOG[..0] + [LOG[0]] == LOG[..1] && LOG[..1] + [LOG[1]] == LOG[..2] && LOG[..2] + [LOG[2]] == LOG;
  }

  lemma FetchesTheLog(policy: Policy)
    ensures Plays(policy, 4)
  {
    hide Next, Held, Withdrawn, Delivered;
    Fetches(policy, Scene(policy, 4));
  }

  lemma FetchesAgain(policy: Policy)
    ensures Plays(policy, 16)
  {
    hide Next, Held, Withdrawn, Delivered;
    var w := Scene(policy, 16);
    assert CursorOf(w.db, LANE) == 0 && !Parked(w.db, LANE) && ProjectorOf(w, LANE).Off? && LogOf(w, LANE) == LOG;
    hide CursorOf, Parked, ProjectorOf, LogOf;
    Fetches(policy, w);
    assert w.projectors[LANE := Page(0, 3, 0)] == map[LANE := Page(0, 3, 0)];
  }

  lemma CrashesBeforeCommit(policy: Policy)
    ensures Plays(policy, 8)
  {
    hide Next;
    Aborts(policy, Scene(policy, 8));
  }

  // What the projector decides about each event.

  lemma SendIsProjected(work: seq<Row>, t: nat)
    requires t == 0 || t == 2
    ensures Projects(work, LOG, LANE, t) && Deliverable(LOG[t]) == Some(if t == 0 then "a" else "b")
  {
  }

  /** The finish is projected exactly when the send it echoes has been skipped. */
  lemma EchoDecides(work: seq<Row>)
    requires FindSource(work, Delivery, EventKey(Agent(0), LANE)) == Some(0) && work[0].payload == ThreadMessage("a")
    ensures Projects(work, LOG, LANE, 1) <==> work[0].state == WorkState.Skipped
    ensures Deliverable(LOG[1]) == Some("a")
  {
    hide FindSource;
    assert Trim("a") == "a";
    assert Deliverable(LOG[1]) == Some("a");
    assert EchoSource(work, LOG, LANE, 0, "a") <==> work[0].state != WorkState.Skipped;
    hide EchoSource, Trim, Deliverable;
    assert IsEcho(work, LOG, LANE, 1, "a") <==> EchoSource(work, LOG, LANE, 0, "a");
  }

  lemma Sources(work: seq<Row>)
    requires 0 < |work| <= 2 && work[0].kind == Delivery && work[0].source == EventKey(Agent(0), LANE)
    requires |work| == 2 ==> work[1].kind == Delivery && work[1].source == EventKey(Agent(2), LANE)
    ensures FindSource(work, Delivery, EventKey(Agent(0), LANE)) == Some(0)
    ensures FindSource(work, Delivery, EventKey(Agent(1), LANE)).None?
    ensures FindSource(work, Delivery, EventKey(Agent(2), LANE)).None? <==> |work| == 1
  {
    assert work[..1][..0] == [];
    if |work| == 1 { assert work[..1] == work; } else { assert work[..2] == work; }
  }

  lemma Sequences(work: seq<Row>)
    requires 0 < |work| <= 2
    requires forall i :: 0 <= i < |work| ==>
      work[i].lane == LANE && work[i].kind == Delivery && work[i].sequence == i + 1
    ensures MaxSequence(work, LANE, Delivery) == |work|
  {
    assert work[..1][..0] == [];
    if |work| == 1 { assert work[..1] == work; }
  }

  lemma QueuesA(policy: Policy)
    ensures Plays(policy, 5)
  {
    hide Next, Projects, Deliverable;
    SendIsProjected([], 0);
    Processes(policy, Scene(policy, 5), 0);
  }

  lemma DropsTheEcho(policy: Policy)
    ensures Plays(policy, 6)
  {
    hide Next, Projects, Deliverable, InsertWork, FindSource;
    Sources([A0]);
    EchoDecides([A0]);
    Processes(policy, Scene(policy, 6), 1);
  }

  lemma QueuesB(policy: Policy)
    ensures Plays(policy, 7)
  {
    hide Next, Projects, Deliverable, FindSource, MaxSequence;
    Sources([A0]);
    Sequences([A0]);
    SendIsProjected([A0], 2);
    Processes(policy, Scene(policy, 7), 2);
  }

  lemma Later(policy: Policy)
    ensures var gone, done := Withdrawn(policy), Delivered(policy);
      && gone.kind == Delivery && gone.source == EventKey(Agent(0), LANE) && gone.payload == ThreadMessage("a")
      && gone.state == WorkState.Skipped && gone.lane == LANE && gone.sequence == 1
      && done.kind == Delivery && done.source == EventKey(Agent(2), LANE) && done.state == Done
      && done.lane == LANE && done.sequence == 2
  {
  }

  lemma AlreadyQueued(work: seq<Row>, event: EventId, text: string)
    requires FindSource(work, Delivery, EventKey(event, LANE)).Some?
    ensures var db := Db(map[LANE := Lane(0, 0)], work, map[], map[]);
      InsertWork(db, Delivery, EventKey(event, LANE), LANE, event, ThreadMessage(text), 0) == db
  {
    hide FindSource;
  }

  lemma FindsA(policy: Policy)
    ensures Plays(policy, 17)
  {
    hide Next, Projects, Deliverable, FindSource, MaxSequence, Withdrawn, Delivered, Held, NewRow;
    var work := [Withdrawn(policy), Delivered(policy)];
    Later(policy);
    Sources(work);
    SendIsProjected(work, 0);
    AlreadyQueued(work, Agent(0), "a");
    hide InsertWork;
    Processes(policy, Scene(policy, 17), 0);
  }

  lemma QueuesTheEcho(policy: Policy)
    ensures Plays(policy, 18)
  {
    hide Next, Projects, Deliverable, FindSource, MaxSequence, Withdrawn, Delivered, Held;
    Later(policy);
    Sources([Withdrawn(policy), Delivered(policy)]);
    Sequences([Withdrawn(policy), Delivered(policy)]);
    EchoDecides([Withdrawn(policy), Delivered(policy)]);
    Processes(policy, Scene(policy, 18), 1);
  }

  // What the dispatcher does.

  lemma ClaimableHere(work: seq<Row>, id: nat)
    requires id < |work| && work[id].kind == Delivery && work[id].state == Ready && work[id].availableAt == 0
    requires forall i :: 0 <= i < |work| && i != id ==> work[i].lane == work[id].lane && work[i].kind == Delivery
    requires forall i :: 0 <= i < id ==> Resolved(work[i]) && work[i].sequence < work[id].sequence
    requires forall i :: id < i < |work| ==> work[i].sequence > work[id].sequence
    ensures Claimable(work, Some(Delivery), 0, id)
  {
  }

  lemma ClaimsA(policy: Policy)
    ensures Plays(policy, 9)
  {
    hide Next, Claimable, Withdrawn, Delivered;
    ClaimableHere([A0, B0], 0);
    ClaimsRow(policy, Scene(policy, 9), 0);
  }

  lemma ClaimsB(policy: Policy)
    ensures Plays(policy, 12)
  {
    hide Next, Claimable, Withdrawn, Delivered;
    Later(policy);
    ClaimableHere([Withdrawn(policy), B0], 1);
    ClaimsRow(policy, Scene(policy, 12), 1);
  }

  lemma ClaimsTheEcho(policy: Policy)
    ensures Plays(policy, 19)
  {
    hide Next, Claimable, Withdrawn, Delivered;
    Later(policy);
    ClaimableHere([Withdrawn(policy), Delivered(policy), ECHO], 2);
    ClaimsRow(policy, Scene(policy, 19), 2);
  }

  lemma FailsA(policy: Policy)
    ensures Plays(policy, 10)
  {
    hide Next, Settle;
    var w := Scene(policy, 10);
    SettlesOne(policy, w.db, Token(0, 1), Fail);
    Rejects(policy, w, Token(0, 1));
  }

  /** A live delivery settles as its outcome says. */
  lemma SettlesOne(policy: Policy, db: Db, t: Token, outcome: Outcome)
    requires Live(db, t) && db.commands == map[] && !outcome.Retry?
    ensures Settle(policy, db, t, outcome, 0) ==
      db.(work := db.work[t.id := SettledRow(policy, db.work[t.id], outcome, 0)])
  {
    hide SettledRow;
  }

  lemma SkipsA(policy: Policy)
    ensures Plays(policy, 11)
  {
    hide Next;
    Skips(policy, Scene(policy, 11), 0);
  }

  /** Marking a freshly claimed row. */
  lemma HeldIsMarked(policy: Policy, work: seq<Row>, r: Row, t: Token)
    requires t.id < |work| && work[t.id] == Held(policy, r) && t.generation == r.generation + 1
    ensures var db := Db(map[LANE := Lane(0, 0)], work, map[], map[]);
      Live(db, t) && MarkSending(db, t) == db.(work := work[t.id := Held(policy, r).(sendAttempted := true)])
  {
  }

  lemma MarksB(policy: Policy)
    ensures Plays(policy, 13)
  {
    hide Next, Withdrawn, Delivered, Held, MarkSending, Live;
    var work := [Withdrawn(policy), Held(policy, B0)];
    HeldIsMarked(policy, work, B0, Token(1, 1));
    assert work[1 := Held(policy, B0).(sendAttempted := true)] == [work[0], Held(policy, B0).(sendAttempted := true)];
    var none: multiset<nat>, one: multiset<nat> := multiset{}, multiset{1};
    assert none + one == one && [] + [1] == [1];
    var w := Scene(policy, 13);
    assert w.pendingSends == none && w.marks == [] && w.db.work == work;
    Marks(policy, w, Token(1, 1));
  }

  lemma LandsB(policy: Policy)
    ensures Plays(policy, 14)
  {
    hide Next, Withdrawn, Delivered, Held;
    var one: multiset<nat> := multiset{1};
    assert one - multiset{1} == multiset{} && multiset{} + multiset{1} == one;
    var w := Scene(policy, 14);
    assert w.pendingSends == one && w.sends == multiset{};
    Lands(policy, w, Token(1, 1));
  }

  lemma SettlesB(policy: Policy)
    ensures Plays(policy, 15)
  {
    hide Next, Settle, Withdrawn;
    var w := Scene(policy, 15);
    SettlesOne(policy, w.db, Token(1, 1), Sent(None));
    Settles(policy, w, Token(1, 1));
  }

  lemma SendsTheEcho(policy: Policy)
    ensures Plays(policy, 20)
  {
    hide Next, Withdrawn, Delivered, Held, MarkSending, Live;
    var work := [Withdrawn(policy), Delivered(policy), Held(policy, ECHO)];
    HeldIsMarked(policy, work, ECHO, Token(2, 1));
    assert work[2 := Held(policy, ECHO).(sendAttempted := true)] ==
      [work[0], work[1], Held(policy, ECHO).(sendAttempted := true)];
    assert multiset{} + multiset{2} == multiset{2} && [1] + [2] == [1, 2];
    Marks(policy, Scene(policy, 20), Token(2, 1));
  }

  lemma EveryScenePlays(policy: Policy, n: nat)
    requires n < |STORY|
    ensures Plays(policy, n)
  {
    hide Plays;
    if n == 0 { Arrives(policy); }
    else if n <= 3 { Speaks(policy, n); }
    else if n == 4 { FetchesTheLog(policy); }
    else if n == 5 { QueuesA(policy); }
    else if n == 6 { DropsTheEcho(policy); }
    else if n == 7 { QueuesB(policy); }
    else if n == 8 { CrashesBeforeCommit(policy); }
    else if n == 9 { ClaimsA(policy); }
    else if n == 10 { FailsA(policy); }
    else if n == 11 { SkipsA(policy); }
    else if n == 12 { ClaimsB(policy); }
    else if n == 13 { MarksB(policy); }
    else if n == 14 { LandsB(policy); }
    else if n == 15 { SettlesB(policy); }
    else if n == 16 { FetchesAgain(policy); }
    else if n == 17 { FindsA(policy); }
    else if n == 18 { QueuesTheEcho(policy); }
    else if n == 19 { ClaimsTheEcho(policy); }
    else { SendsTheEcho(policy); }
  }

  lemma {:induction false} RunIsScene(policy: Policy, n: nat)
    requires n <= |STORY|
    ensures Run(policy, Initial(1, 0), Steps()[..n]) == Scene(policy, n)
  {
    if n == 0 {
      assert Initial(1, 0).dispatchers == [Idle] && Initial(1, 0).intakeWorkers == [];
    } else {
      RunIsScene(policy, n - 1);
      EveryScenePlays(policy, n - 1);
      assert Steps()[..n][..n - 1] == Steps()[..n - 1] && Steps()[..n][n - 1] == At(STORY[n - 1], 0);
      hide Scene, Next, Initial, Steps;
    }
  }

  /**
   In this reachable world the lane's first send mark is for the third event of the log and its second
   for the second event: without a condition on skips the marks need not follow the log.
   */
  lemma MarksCanLeaveTheLog(policy: Policy)
    ensures var w := Scene(policy, |STORY|);
      && Reachable(policy, w)
      && w.marks == [1, 2]
      && DeliversEvent(w.db.work, LANE, LogOf(w, LANE), 1, 2)
      && DeliversEvent(w.db.work, LANE, LogOf(w, LANE), 2, 1)
  {
    RunIsScene(policy, |STORY|);
    assert Steps()[..|STORY|] == Steps();
    hide Run, Steps, Initial;
  }
}
