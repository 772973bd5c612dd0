/**
 The coordinator's durable state as a value, and each store transaction as a function on it.

 A work row's id is its position in the table: the program draws a fresh random id per inserted row
 and never deletes one, so a position is as good an identity.
 */
module WorkTable {
  import opened Identities

  datatype WorkKind = Intake | Delivery

  datatype WorkState = Ready | Claimed | Done | RetryWait | Failed | DeliveryUnknown | Skipped

  datatype CommandResult = Succeeded | Rejected | Unknown

  datatype CommandStatus = Pending | Attempted | Finished(result: CommandResult)

  datatype Command = Command(status: CommandStatus, deadline: Option<Time>)

  datatype Payload =
    | ThreadMessage(text: string)
    | Receipt(result: CommandResult, agentControlled: bool)
    | Content(n: nat)

  datatype Row = Row(
    kind: WorkKind,
    source: SourceKey,
    lane: LaneKey,
    sequence: nat,
    agentEvent: EventId,
    state: WorkState,
    availableAt: Time,
    claimOwner: Option<nat>,
    claimUntil: Option<Time>,
    generation: nat,
    attempts: nat,
    sendAttempted: bool,
    externalId: Option<nat>,
    payload: Payload)

  datatype Lane = Lane(platform: nat, account: nat)

  datatype Cursor = Cursor(next: Option<nat>, parked: bool)

  datatype Db = Db(
    lanes: map<LaneKey, Lane>,
    work: seq<Row>,
    commands: map<nat, Command>,
    cursors: map<LaneKey, Cursor>)

  /** `jitter` is the program's optional jitterMs, absent by default; nothing keeps it from being negative. */
  datatype Policy = Policy(maxAttempts: nat, base: nat, cap: nat, ttl: nat, jitter: nat -> int)

  datatype Outcome =
    | Sent(externalId: Option<nat>)
    | Retry
    | Ambiguous
    | Fail

  /** The fence a worker holds: a row id and the generation its claim gave that row. */
  datatype Token = Token(id: nat, generation: nat)

  const EMPTY := Db(map[], [], map[], map[])

  // ---- Reading the table ------------------------------------------------------------------------

  predicate Resolved(r: Row) {
    r.state == Done || r.state == Skipped
  }

  predicate SameQueue(a: Row, b: Row) {
    a.lane == b.lane && a.kind == b.kind
  }

  /** As inserted: never claimed. */
  predicate Untouched(r: Row) {
    && r.state == Ready
    && r.generation == 0
    && r.attempts == 0
    && !r.sendAttempted
    && r.claimOwner == None
    && r.claimUntil == None
  }

  /** The position of the row with this unique (kind, source) key. */
  function FindSource(work: seq<Row>, kind: WorkKind, source: SourceKey): (r: Option<nat>)
    ensures r.Some? ==> r.value < |work| && work[r.value].kind == kind && work[r.value].source == source
  {
    if work == [] then None
    else
      var last := |work| - 1;
      if work[last].kind == kind && work[last].source == source then Some(last)
      else FindSource(work[..last], kind, source)
  }

  /** COALESCE(MAX(sequence), 0) over one lane and kind. */
  function MaxSequence(work: seq<Row>, lane: LaneKey, kind: WorkKind): nat
  {
    if work == [] then 0
    else
      var last := work[|work| - 1];
      var rest := MaxSequence(work[..|work| - 1], lane, kind);
      if last.lane == lane && last.kind == kind && rest < last.sequence then last.sequence else rest
  }

  predicate Live(db: Db, t: Token) {
    t.id < |db.work| && db.work[t.id].state == Claimed && db.work[t.id].generation == t.generation
  }

  predicate CommandIs(db: Db, id: nat, status: CommandStatus) {
    id in db.commands && db.commands[id].status == status
  }

  /** Ready, due, and no earlier row of its lane and kind is unresolved. */
  predicate DueHead(work: seq<Row>, kind: Option<WorkKind>, now: Time, id: nat) {
    && id < |work|
    && work[id].state == Ready
    && work[id].availableAt <= now
    && (kind == None || kind == Some(work[id].kind))
    && forall j :: 0 <= j < |work| && SameQueue(work[j], work[id]) && work[j].sequence < work[id].sequence
        ==> Resolved(work[j])
  }

  /** ORDER BY available_at, sequence. */
  predicate Before(a: Row, b: Row) {
    a.availableAt < b.availableAt || (a.availableAt == b.availableAt && a.sequence < b.sequence)
  }

  /** A head that claimReady may return: no due head sorts before it. */
  predicate Claimable(work: seq<Row>, kind: Option<WorkKind>, now: Time, id: nat) {
    && DueHead(work, kind, now, id)
    && forall j :: 0 <= j < |work| && DueHead(work, kind, now, j) ==> !Before(work[j], work[id])
  }

  // ---- Accepting work ---------------------------------------------------------------------------

  function NewRow(work: seq<Row>, kind: WorkKind, source: SourceKey, lane: LaneKey, event: EventId,
                  payload: Payload, now: Time): Row {
    Row(kind, source, lane, MaxSequence(work, lane, kind) + 1, event, Ready, now, None, None, 0, 0, false,
        None, payload)
  }

  /** Idempotent on (kind, source). An unknown lane rolls the transaction back. */
  function InsertWork(db: Db, kind: WorkKind, source: SourceKey, lane: LaneKey, event: EventId,
                      payload: Payload, now: Time): Db {
    if lane !in db.lanes || FindSource(db.work, kind, source).Some? then db
    else db.(work := db.work + [NewRow(db.work, kind, source, lane, event, payload, now)])
  }

  /** A replay returns the accepted row and never turns a message into a command. */
  function AcceptIntake(db: Db, lane: LaneKey, source: SourceKey, event: EventId, payload: Payload,
                        command: bool, now: Time): Db {
    if lane !in db.lanes || FindSource(db.work, Intake, source).Some? then db
    else
      var inserted := InsertWork(db, Intake, source, lane, event, payload, now);
      if command then inserted.(commands := inserted.commands[|db.work| := Command(Pending, None)])
      else inserted
  }

  function ResolveLane(db: Db, lane: LaneKey, info: Lane): Db {
    if lane in db.lanes then db else db.(lanes := db.lanes[lane := info])
  }

  // ---- Claims -----------------------------------------------------------------------------------

  function ClaimedRow(policy: Policy, r: Row, owner: nat, now: Time): Row {
    r.(state := Claimed, claimOwner := Some(owner), claimUntil := Some(now + policy.ttl),
       generation := r.generation + 1, attempts := r.attempts + 1)
  }

  function Claim(policy: Policy, db: Db, id: nat, owner: nat, now: Time): Db
    requires id < |db.work|
  {
    db.(work := db.work[id := ClaimedRow(policy, db.work[id], owner, now)])
  }

  function MarkSending(db: Db, t: Token): Db {
    if Live(db, t) then db.(work := db.work[t.id := db.work[t.id].(sendAttempted := true)]) else db
  }

  function Unclaimed(r: Row, state: WorkState): Row {
    r.(state := state, claimOwner := None, claimUntil := None)
  }

  function Release(db: Db, t: Token, now: Time): Db {
    if Live(db, t) then
      var r := db.work[t.id];
      var attempts := if r.attempts > 0 then r.attempts - 1 else 0;
      db.(work := db.work[t.id := Unclaimed(r, Ready).(availableAt := now, attempts := attempts)])
    else db
  }

  // ---- Settling ---------------------------------------------------------------------------------

  function Power2(n: nat): (p: nat)
    ensures p >= 1
  {
    if n == 0 then 1 else 2 * Power2(n - 1)
  }

  function Backoff(policy: Policy, attempts: nat): int {
    var doubled := policy.base * Power2(if attempts > 0 then attempts - 1 else 0);
    (if doubled < policy.cap then doubled else policy.cap) + policy.jitter(attempts)
  }

  function CompletedRow(r: Row): Row {
    Unclaimed(r, Done).(generation := r.generation + 1)
  }

  /** Journal outcome, receipt and intake completion in one commit. */
  function CompleteCommand(db: Db, id: nat, result: CommandResult, agentControlled: bool, now: Time): (after: Db)
    requires id < |db.work|
    ensures |db.work| <= |after.work| <= |db.work| + 1
  {
    var r := db.work[id];
    if r.lane !in db.lanes then db
    else
      var receipted := InsertWork(db, Delivery, ReceiptKey(id), r.lane, CommandReceipt(r.source),
                                  Receipt(result, agentControlled), now);
      receipted.(work := receipted.work[id := CompletedRow(r)],
                 commands := db.commands[id := Command(Finished(result), None)])
  }

  function SettledRow(policy: Policy, r: Row, outcome: Outcome, now: Time): Row {
    match outcome
    case Sent(ext) => Unclaimed(r, Done).(externalId := ext)
    case Ambiguous => Unclaimed(r, DeliveryUnknown)
    case Fail => Unclaimed(r, Failed)
    case Retry =>
      if r.attempts >= policy.maxAttempts then Unclaimed(r, Failed)
      else Unclaimed(r, RetryWait).(availableAt := now + Backoff(policy, r.attempts))
  }

  /** The settlement that would fail a command that never started completes it as rejected instead. */
  predicate RejectsPending(policy: Policy, db: Db, id: nat, outcome: Outcome)
    requires id < |db.work|
  {
    CommandIs(db, id, Pending) &&
    (outcome == Fail || (outcome == Retry && db.work[id].attempts >= policy.maxAttempts))
  }

  function Settle(policy: Policy, db: Db, t: Token, outcome: Outcome, now: Time): Db {
    if !Live(db, t) then db
    else if RejectsPending(policy, db, t.id, outcome) then CompleteCommand(db, t.id, Rejected, false, now)
    else db.(work := db.work[t.id := SettledRow(policy, db.work[t.id], outcome, now)])
  }

  // ---- Commands ---------------------------------------------------------------------------------

  predicate Startable(db: Db, t: Token) {
    Live(db, t) && CommandIs(db, t.id, Pending)
  }

  /** The durable fence before the one non-idempotent request; it also extends the claim. */
  function StartCommand(db: Db, t: Token, now: Time, timeout: nat): Db {
    if Startable(db, t) then
      var deadline := Some(now + timeout);
      db.(work := db.work[t.id := db.work[t.id].(claimUntil := deadline)],
          commands := db.commands[t.id := Command(Attempted, deadline)])
    else db
  }

  predicate Finishable(db: Db, t: Token, result: CommandResult) {
    && t.id < |db.work|
    && db.work[t.id].generation == t.generation
    && (|| (db.work[t.id].state == Claimed && CommandIs(db, t.id, Attempted))
        || (db.work[t.id].state in {Claimed, Failed} && CommandIs(db, t.id, Pending) && result == Rejected))
  }

  function FinishCommand(db: Db, t: Token, result: CommandResult, agentControlled: bool, now: Time): Db {
    if Finishable(db, t, result) then CompleteCommand(db, t.id, result, agentControlled, now) else db
  }

  // ---- Reconcile --------------------------------------------------------------------------------

  predicate StrandedCommand(db: Db, id: nat) {
    id < |db.work| && CommandIs(db, id, Pending) && db.work[id].state == Failed
  }

  predicate ExpiredCommand(db: Db, id: nat, now: Time) {
    && id < |db.work|
    && CommandIs(db, id, Attempted)
    && db.commands[id].deadline.Some?
    && db.commands[id].deadline.value <= now
  }

  /** Completes, in order, the stranded commands among the first n rows. */
  function RejectStranded(db: Db, n: nat, now: Time): (after: Db)
    requires n <= |db.work|
    ensures |db.work| <= |after.work|
  {
    if n == 0 then db
    else
      var before := RejectStranded(db, n - 1, now);
      if StrandedCommand(before, n - 1) then CompleteCommand(before, n - 1, Rejected, false, now) else before
  }

  /** Completes, in order, the commands among the first n rows whose attempt deadline has passed. */
  function ExpireCommands(db: Db, n: nat, now: Time): (after: Db)
    requires n <= |db.work|
    ensures |db.work| <= |after.work|
  {
    if n == 0 then db
    else
      var before := ExpireCommands(db, n - 1, now);
      if ExpiredCommand(before, n - 1, now) then CompleteCommand(before, n - 1, Unknown, false, now) else before
  }

  function SweptRow(r: Row, now: Time): Row {
    if r.state == Claimed && r.claimUntil.Some? && r.claimUntil.value <= now then
      if r.kind == Delivery && r.sendAttempted then
        Unclaimed(r, DeliveryUnknown).(generation := r.generation + 1)
      else Unclaimed(r, Ready).(generation := r.generation + 1)
    else if r.state == RetryWait && r.availableAt <= now then r.(state := Ready)
    else r
  }

  function Sweep(db: Db, now: Time): Db {
    db.(work := seq(|db.work|, i requires 0 <= i < |db.work| => SweptRow(db.work[i], now)))
  }

  function Reconcile(db: Db, now: Time): Db {
    var rejected := RejectStranded(db, |db.work|, now);
    Sweep(ExpireCommands(rejected, |rejected.work|, now), now)
  }

  // ---- Operator repairs -------------------------------------------------------------------------

  predicate Blocked(db: Db, id: nat) {
    id < |db.work| && (db.work[id].state == Failed || db.work[id].state == DeliveryUnknown)
  }

  function Skip(db: Db, id: nat): Db {
    if Blocked(db, id) then db.(work := db.work[id := db.work[id].(state := Skipped)]) else db
  }

  function ConfirmDelivered(db: Db, id: nat, ext: Option<nat>): Db {
    if id < |db.work| && db.work[id].state == DeliveryUnknown then
      db.(work := db.work[id := db.work[id].(state := Done, externalId := ext)])
    else db
  }

  function RequeuedRow(r: Row, now: Time): Row {
    Unclaimed(r, Ready).(availableAt := now, sendAttempted := false, generation := r.generation + 1)
  }

  function Requeue(db: Db, id: nat, now: Time): Db {
    if Blocked(db, id) then db.(work := db.work[id := RequeuedRow(db.work[id], now)]) else db
  }

  // ---- Projection cursors -----------------------------------------------------------------------

  function CursorOf(db: Db, lane: LaneKey): nat {
    if lane in db.cursors && db.cursors[lane].next.Some? then db.cursors[lane].next.value else 0
  }

  predicate Parked(db: Db, lane: LaneKey) {
    lane in db.cursors && db.cursors[lane].parked
  }

  function SetCursor(db: Db, lane: LaneKey, next: nat): Db {
    db.(cursors := db.cursors[lane := Cursor(Some(next), Parked(db, lane))])
  }

  function ParkCursor(db: Db, lane: LaneKey): Db {
    var next := if lane in db.cursors then db.cursors[lane].next else None;
    db.(cursors := db.cursors[lane := Cursor(next, true)])
  }

  function UnparkCursor(db: Db, lane: LaneKey): Db {
    if lane in db.cursors then db.(cursors := db.cursors[lane := db.cursors[lane].(parked := false)]) else db
  }
}
