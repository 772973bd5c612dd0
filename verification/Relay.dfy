/**
 The whole relay as a step system: any number of delivery dispatchers and intake workers, condense
 operations, one projector per conversation, the agent-server's logs, reconcile and operators, in
 any interleaving and under any clock. One step is one transaction or one external event; a crash
 forgets what a worker held. A request that has left a worker may land later, even after the worker
 timed out or crashed, or never.

 A conversation is identified with its lane: the lane directory is a bijection between the two.
 */
module Relay {
  import opened Identities
  import opened WorkTable
  import opened WorkInvariants
  import opened AgentEvents

  /** Where dispatchNext stands: the send of a Sending worker may or may not have happened yet. */
  datatype Dispatcher = Idle | Holding(token: Token) | Sending(token: Token) | Returned(token: Token)

  /** Where integrateNextIntake stands. */
  datatype IntakeWorker = Resting | Working(token: Token) | Appending(token: Token)

  /** Where syncDeliveryOutbox stands: a fetched page and how many of its events are processed. */
  datatype Projector = Off | Page(offset: nat, size: nat, done: nat)

  /**
   The last group is history, read by the theorems and by no step: the order of durable send marks,
   and how often a row was requeued or a command started. `frontier` is how far any projector pass
   has ever processed a lane's log.
   */
  datatype World = World(
    db: Db,
    logs: map<LaneKey, seq<Event>>,
    dispatchers: seq<Dispatcher>,
    intakeWorkers: seq<IntakeWorker>,
    operations: set<Token>,
    projectors: map<LaneKey, Projector>,
    pendingSends: multiset<nat>,
    sends: multiset<nat>,
    pendingAppends: set<nat>,
    pendingCondenses: multiset<nat>,
    condenses: multiset<nat>,
    marks: seq<nat>,
    requeues: multiset<nat>,
    starts: multiset<nat>,
    frontier: map<LaneKey, nat>)

  function Initial(dispatchers: nat, intakeWorkers: nat): World {
    World(EMPTY, map[], seq(dispatchers, _ => Idle), seq(intakeWorkers, _ => Resting), {}, map[],
          multiset{}, multiset{}, {}, multiset{}, multiset{}, [], multiset{}, multiset{}, map[])
  }

  function LogOf(w: World, lane: LaneKey): seq<Event> {
    if lane in w.logs then w.logs[lane] else []
  }

  function ProjectorOf(w: World, lane: LaneKey): Projector {
    if lane in w.projectors then w.projectors[lane] else Off
  }

  function FrontierOf(w: World, lane: LaneKey): nat {
    if lane in w.frontier then w.frontier[lane] else 0
  }

  // ---- What the projector decides ---------------------------------------------------------------

  function DeliveryText(payload: Payload): Option<string> {
    if payload.ThreadMessage? then Some(Trim(payload.text)) else None
  }

  /** The outbox holds this send with this text, and it has not been skipped. */
  predicate Queued(work: seq<Row>, lane: LaneKey, event: EventId, text: string) {
    var found := FindSource(work, Delivery, EventKey(event, lane));
    found.Some? && work[found.value].state != Skipped && DeliveryText(work[found.value].payload) == Some(text)
  }

  /** Event s of the log is a queued send of this text. */
  predicate EchoSource(work: seq<Row>, log: seq<Event>, lane: LaneKey, s: int, text: string)
    requires 0 <= s < |log|
  {
    SendText(log[s]).Some? && Queued(work, lane, log[s].id, text)
  }

  /** A queued send of the same text earlier in the turn that event t ends. */
  predicate IsEcho(work: seq<Row>, log: seq<Event>, lane: LaneKey, t: nat, text: string)
    requires t <= |log|
  {
    exists s :: 0 <= s < t && EchoSource(work, log, lane, s, text) && forall m :: s < m < t ==> !TurnBoundary(log[m])
  }

  /** Event t yields a delivery, given what the outbox holds. */
  predicate Projects(work: seq<Row>, log: seq<Event>, lane: LaneKey, t: nat)
    requires t < |log|
  {
    && Deliverable(log[t]).Some?
    && !(TerminalText(log[t]).Some? && IsEcho(work, log, lane, t, Trim(Deliverable(log[t]).value)))
  }

  // ---- Steps ------------------------------------------------------------------------------------

  datatype Step =
    | MeetLane(lane: LaneKey, info: Lane)
    | Accept(lane: LaneKey, source: SourceId, payload: Payload, command: bool)
    | DeliveryClaim(d: nat, id: nat)
    | DeliveryReject(d: nat)
    | DeliveryRelease(d: nat)
    | DeliveryMark(d: nat)
    | SendLands(d: nat)
    | StraySendLands(id: nat)
    | DeliverySettle(d: nat, ext: Option<nat>)
    | DeliveryGiveUp(d: nat)
    | DispatcherCrash(d: nat)
    | IntakeClaim(k: nat, id: nat)
    | IntakeStart(k: nat, timeout: nat)
    | IntakeAppend(k: nat)
    | AppendLands(id: nat)
    | IntakeSettle(k: nat)
    | IntakeRetry(k: nat)
    | IntakeFail(k: nat)
    | IntakeCrash(k: nat)
    | CondenseLands(id: nat)
    | CommandFinish(token: Token, result: CommandResult, agentControlled: bool)
    | CommandCrash(token: Token)
    | AgentEmits(lane: LaneKey, event: Event)
    | SyncFetch(lane: LaneKey, size: nat)
    | SyncEvent(lane: LaneKey)
    | SyncCommit(lane: LaneKey)
    | SyncAbort(lane: LaneKey)
    | SyncPark(lane: LaneKey)
    | Unpark(lane: LaneKey)
    | Reconciling
    | SkipWork(id: nat)
    | ConfirmWork(id: nat, ext: Option<nat>)
    | RequeueWork(id: nat)

  predicate AtPage(w: World, lane: LaneKey) {
    ProjectorOf(w, lane).Page?
  }

  predicate Enabled(w: World, step: Step, now: Time) {
    match step
    case MeetLane(_, _) => true
    case Accept(lane, _, _, _) => lane in w.db.lanes
    case DeliveryClaim(d, id) =>
      d < |w.dispatchers| && w.dispatchers[d].Idle? && Claimable(w.db.work, Some(Delivery), now, id)
    case DeliveryReject(d) => d < |w.dispatchers| && w.dispatchers[d].Holding?
    case DeliveryRelease(d) => d < |w.dispatchers| && w.dispatchers[d].Holding?
    case DeliveryMark(d) => d < |w.dispatchers| && w.dispatchers[d].Holding?
    case SendLands(d) =>
      d < |w.dispatchers| && w.dispatchers[d].Sending? && w.dispatchers[d].token.id in w.pendingSends
    case StraySendLands(id) => id in w.pendingSends
    case DeliverySettle(d, _) => d < |w.dispatchers| && w.dispatchers[d].Returned?
    case DeliveryGiveUp(d) => d < |w.dispatchers| && (w.dispatchers[d].Sending? || w.dispatchers[d].Returned?)
    case DispatcherCrash(d) => d < |w.dispatchers|
    case IntakeClaim(k, id) =>
      k < |w.intakeWorkers| && w.intakeWorkers[k].Resting? && Claimable(w.db.work, Some(Intake), now, id)
    case IntakeStart(k, _) =>
      k < |w.intakeWorkers| && w.intakeWorkers[k].Working? && w.intakeWorkers[k].token.id in w.db.commands
    case IntakeAppend(k) =>
      k < |w.intakeWorkers| && w.intakeWorkers[k].Working? && w.intakeWorkers[k].token.id !in w.db.commands
    case AppendLands(id) => id in w.pendingAppends && id < |w.db.work|
    case IntakeSettle(k) =>
      && k < |w.intakeWorkers| && w.intakeWorkers[k].Appending?
      && var id := w.intakeWorkers[k].token.id;
         id < |w.db.work| && InLog(LogOf(w, w.db.work[id].lane), w.db.work[id].agentEvent)
    case IntakeRetry(k) => k < |w.intakeWorkers| && !w.intakeWorkers[k].Resting?
    case IntakeFail(k) => k < |w.intakeWorkers| && !w.intakeWorkers[k].Resting?
    case IntakeCrash(k) => k < |w.intakeWorkers|
    case CondenseLands(id) => id in w.pendingCondenses
    case CommandFinish(t, _, _) => t in w.operations
    case CommandCrash(t) => t in w.operations
    case AgentEmits(lane, e) => lane in w.db.lanes && e.id.Agent? && !InLog(LogOf(w, lane), e.id)
    case SyncFetch(lane, size) =>
      && lane in w.db.lanes && size > 0 && ProjectorOf(w, lane).Off? && !Parked(w.db, lane)
      && CursorOf(w.db, lane) <= |LogOf(w, lane)|
    case SyncEvent(lane) =>
      && AtPage(w, lane)
      && ProjectorOf(w, lane).done < ProjectorOf(w, lane).size
      && ProjectorOf(w, lane).offset + ProjectorOf(w, lane).done < |LogOf(w, lane)|
    case SyncCommit(lane) => AtPage(w, lane) && ProjectorOf(w, lane).done == ProjectorOf(w, lane).size
    case SyncAbort(lane) => AtPage(w, lane)
    case SyncPark(lane) => AtPage(w, lane)
    case _ => true
  }

  /** The event a SyncEvent step is about to process. */
  function Position(w: World, lane: LaneKey): nat {
    match ProjectorOf(w, lane)
    case Off => 0
    case Page(offset, _, done) => offset + done
  }

  /** The store transaction a step performs, if it performs one. */
  function CallOf(w: World, step: Step, now: Time): Option<Op>
    requires Enabled(w, step, now)
  {
    match step
    case MeetLane(lane, info) => Some(OpResolveLane(lane, info))
    case Accept(lane, source, payload, command) =>
      var info := w.db.lanes[lane];
      Some(OpAccept(lane, MessageKey(info.platform, info.account, source), Inbound(info.platform, source),
                    payload, command))
    case DeliveryClaim(d, id) => Some(OpClaim(Some(Delivery), id, d))
    case DeliveryReject(d) => Some(OpSettle(w.dispatchers[d].token, Fail))
    case DeliveryRelease(d) => Some(OpRelease(w.dispatchers[d].token))
    case DeliveryMark(d) => Some(OpMarkSending(w.dispatchers[d].token))
    case DeliverySettle(d, ext) => Some(OpSettle(w.dispatchers[d].token, Sent(ext)))
    case DeliveryGiveUp(d) => Some(OpSettle(w.dispatchers[d].token, Ambiguous))
    case IntakeClaim(k, id) => Some(OpClaim(Some(Intake), id, k))
    case IntakeStart(k, timeout) => Some(OpStartCommand(w.intakeWorkers[k].token, timeout))
    case IntakeSettle(k) => Some(OpSettle(w.intakeWorkers[k].token, Sent(None)))
    case IntakeRetry(k) => Some(OpSettle(w.intakeWorkers[k].token, Retry))
    case IntakeFail(k) =>
      var t := w.intakeWorkers[k].token;
      if CommandIs(w.db, t.id, Pending) then Some(OpFinishCommand(t, Rejected, false)) else Some(OpSettle(t, Fail))
    case CommandFinish(t, result, agentControlled) => Some(OpFinishCommand(t, result, agentControlled))
    case SyncEvent(lane) =>
      var log, p := LogOf(w, lane), Position(w, lane);
      if Projects(w.db.work, log, lane, p) then
        Some(OpInsertDelivery(lane, EventKey(log[p].id, lane), log[p].id, ThreadMessage(Deliverable(log[p]).value)))
      else None
    case SyncCommit(lane) => Some(OpSetCursor(lane, Position(w, lane)))
    case SyncPark(lane) => Some(OpPark(lane))
    case Unpark(lane) => Some(OpUnpark(lane))
    case Reconciling => Some(OpReconcile)
    case SkipWork(id) => Some(OpSkip(id))
    case ConfirmWork(id, ext) => Some(OpConfirm(id, ext))
    case RequeueWork(id) => Some(OpRequeue(id))
    case _ => None
  }

  function DbAfter(policy: Policy, w: World, step: Step, now: Time): Db
    requires Enabled(w, step, now)
  {
    match CallOf(w, step, now)
    case None => w.db
    case Some(op) => Apply(policy, w.db, Call(op, now))
  }

  /** The user message an intake append writes. */
  function UserEvent(r: Row): Event {
    MessageEvent(r.agentEvent, FromUser, UserRole, false, "")
  }

  function AppendOnce(log: seq<Event>, e: Event): seq<Event> {
    if InLog(log, e.id) then log else log + [e]
  }

  function NewToken(w: World, id: nat): Token {
    Token(id, if id < |w.db.work| then w.db.work[id].generation + 1 else 0)
  }

  // What a step does beside its transaction, component by component.

  function NextDispatchers(w: World, step: Step, now: Time): seq<Dispatcher>
    requires Enabled(w, step, now)
  {
    match step
    case DeliveryClaim(d, id) => w.dispatchers[d := Holding(NewToken(w, id))]
    case DeliveryReject(d) => w.dispatchers[d := Idle]
    case DeliveryRelease(d) => w.dispatchers[d := Idle]
    case DeliveryMark(d) =>
      w.dispatchers[d := if Live(w.db, w.dispatchers[d].token) then Sending(w.dispatchers[d].token) else Idle]
    case SendLands(d) => w.dispatchers[d := Returned(w.dispatchers[d].token)]
    case DeliverySettle(d, _) => w.dispatchers[d := Idle]
    case DeliveryGiveUp(d) => w.dispatchers[d := Idle]
    case DispatcherCrash(d) => w.dispatchers[d := Idle]
    case _ => w.dispatchers
  }

  function NextIntakeWorkers(w: World, step: Step, now: Time): seq<IntakeWorker>
    requires Enabled(w, step, now)
  {
    match step
    case IntakeClaim(k, id) => w.intakeWorkers[k := Working(NewToken(w, id))]
    case IntakeStart(k, _) => w.intakeWorkers[k := Resting]
    case IntakeAppend(k) => w.intakeWorkers[k := Appending(w.intakeWorkers[k].token)]
    case IntakeSettle(k) => w.intakeWorkers[k := Resting]
    case IntakeRetry(k) => w.intakeWorkers[k := Resting]
    case IntakeFail(k) => w.intakeWorkers[k := Resting]
    case IntakeCrash(k) => w.intakeWorkers[k := Resting]
    case _ => w.intakeWorkers
  }

  /** The token whose durable send mark this step sets. */
  function Marked(w: World, step: Step, now: Time): Option<Token>
    requires Enabled(w, step, now)
  {
    if step.DeliveryMark? && Live(w.db, w.dispatchers[step.d].token) then Some(w.dispatchers[step.d].token) else None
  }

  /** The row whose external send happens in this step. */
  function Landed(w: World, step: Step, now: Time): Option<nat>
    requires Enabled(w, step, now)
  {
    match step
    case SendLands(d) => Some(w.dispatchers[d].token.id)
    case StraySendLands(id) => Some(id)
    case _ => None
  }

  /** The token whose command this step starts. */
  function Started(w: World, step: Step, now: Time): Option<Token>
    requires Enabled(w, step, now)
  {
    if step.IntakeStart? && Startable(w.db, w.intakeWorkers[step.k].token) then Some(w.intakeWorkers[step.k].token)
    else None
  }

  function NextOperations(w: World, step: Step, now: Time): set<Token>
    requires Enabled(w, step, now)
  {
    match step
    case IntakeStart(_, _) =>
      if Started(w, step, now).Some? then w.operations + {Started(w, step, now).value} else w.operations
    case CommandFinish(t, _, _) => w.operations - {t}
    case CommandCrash(t) => w.operations - {t}
    case _ => w.operations
  }

  function Plus(m: multiset<nat>, x: Option<nat>): multiset<nat> {
    if x.Some? then m + multiset{x.value} else m
  }

  function Minus(m: multiset<nat>, x: Option<nat>): multiset<nat> {
    if x.Some? then m - multiset{x.value} else m
  }

  function IdOf(t: Option<Token>): Option<nat> {
    if t.Some? then Some(t.value.id) else None
  }

  function NextAppends(w: World, step: Step, now: Time): set<nat>
    requires Enabled(w, step, now)
  {
    if step.IntakeAppend? then w.pendingAppends + {w.intakeWorkers[step.k].token.id} else w.pendingAppends
  }

  function NextLogs(w: World, step: Step, now: Time): map<LaneKey, seq<Event>>
    requires Enabled(w, step, now)
  {
    match step
    case AppendLands(id) =>
      var r := w.db.work[id];
      w.logs[r.lane := AppendOnce(LogOf(w, r.lane), UserEvent(r))]
    case AgentEmits(lane, e) => w.logs[lane := LogOf(w, lane) + [e]]
    case _ => w.logs
  }

  function NextProjectors(w: World, step: Step, now: Time): map<LaneKey, Projector>
    requires Enabled(w, step, now)
  {
    match step
    case SyncFetch(lane, size) =>
      var offset := CursorOf(w.db, lane);
      var left := |LogOf(w, lane)| - offset;
      w.projectors[lane := Page(offset, if size < left then size else left, 0)]
    case SyncEvent(lane) =>
      var page := w.projectors[lane];
      w.projectors[lane := page.(done := page.done + 1)]
    case SyncCommit(lane) => w.projectors[lane := Off]
    case SyncAbort(lane) => w.projectors[lane := Off]
    case SyncPark(lane) => w.projectors[lane := Off]
    case _ => w.projectors
  }

  function NextFrontier(w: World, step: Step, now: Time): map<LaneKey, nat>
    requires Enabled(w, step, now)
  {
    if step.SyncEvent? && FrontierOf(w, step.lane) <= Position(w, step.lane) then
      w.frontier[step.lane := Position(w, step.lane) + 1]
    else w.frontier
  }

  function Requeued(w: World, step: Step): Option<nat> {
    if step.RequeueWork? && Blocked(w.db, step.id) then Some(step.id) else None
  }

  function Condensed(step: Step): Option<nat> {
    if step.CondenseLands? then Some(step.id) else None
  }

  datatype Occurrence = At(step: Step, now: Time)

  function Taken(policy: Policy, w: World, step: Step, now: Time): World
    requires Enabled(w, step, now)
  {
    World(
      DbAfter(policy, w, step, now),
      NextLogs(w, step, now),
      NextDispatchers(w, step, now),
      NextIntakeWorkers(w, step, now),
      NextOperations(w, step, now),
      NextProjectors(w, step, now),
      Minus(Plus(w.pendingSends, IdOf(Marked(w, step, now))), Landed(w, step, now)),
      Plus(w.sends, Landed(w, step, now)),
      NextAppends(w, step, now),
      Minus(Plus(w.pendingCondenses, IdOf(Started(w, step, now))), Condensed(step)),
      Plus(w.condenses, Condensed(step)),
      if Marked(w, step, now).Some? then w.marks + [Marked(w, step, now).value.id] else w.marks,
      Plus(w.requeues, Requeued(w, step)),
      Plus(w.starts, IdOf(Started(w, step, now))),
      NextFrontier(w, step, now))
  }

  /** A step that is not enabled does not happen. */
  function Next(policy: Policy, w: World, at: Occurrence): World {
    if Enabled(w, at.step, at.now) then Taken(policy, w, at.step, at.now) else w
  }

  /** The world after a whole run. */
  function Run(policy: Policy, start: World, steps: seq<Occurrence>): World {
    if steps == [] then start
    else Next(policy, Run(policy, start, steps[..|steps| - 1]), steps[|steps| - 1])
  }

  /** A world that some run of some number of workers reaches. */
  ghost predicate Reachable(policy: Policy, w: World) {
    exists dispatchers: nat, intakeWorkers: nat, steps: seq<Occurrence> ::
      w == Run(policy, Initial(dispatchers, intakeWorkers), steps)
  }

  /** `later` is what some continuation makes of w. */
  ghost predicate Continues(policy: Policy, w: World, later: World) {
    exists more: seq<Occurrence> :: later == Run(policy, w, more)
  }
}
