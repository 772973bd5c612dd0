/**
 The scheduler's tables as a value, and each of its transactions as a function on it.

 A date, an interval and a cron expression are kept as the answers of the parsers that read them. The
 calendar's only assumed property is that the next cron time lies after the current time.
 */
module TaskSchedule {
  import opened Identities
  import opened AgentEvents

  datatype ScheduleKind = Cron | Interval | Once | OtherKind

  /** One schedule_value as an integer, as a cron expression and as a date, where it parses as such. */
  datatype ScheduleValue = ScheduleValue(ms: Option<int>, cron: Option<nat>, date: Option<Time>)

  type Calendar = f: (nat, Time) -> Time | forall e: nat, t: Time :: f(e, t) > t
    witness (e: nat, t: Time) => t + 1

  datatype Lane = Lane(platform: nat, account: nat, scope: nat, key: LaneKey, owner: nat)

  datatype TaskStatus = Active | Paused | Completed | Cancelled

  datatype Task = Task(
    conversation: ConversationId,
    scope: nat,
    prompt: string,
    kind: ScheduleKind,
    value: ScheduleValue,
    grouped: bool,
    next: Option<Time>,
    status: TaskStatus,
    lastRun: Option<Time>)

  datatype RunStatus = ReadyRun | Enqueued | Started | DoneRun | FailedRun | CancelledRun

  datatype Run = Run(conversation: ConversationId, status: RunStatus, prompt: string, lane: Lane)

  datatype Reply =
    | Listed(tasks: set<TaskId>)
    | ScheduledAs(task: TaskId, next: Time)
    | TaskPaused
    | TaskCancelled
    | TaskResumed
    | TaskUpdated

  datatype Refusal =
    | NotRegistered
    | OtherScope
    | NoTarget
    | NoPrompt
    | BadSchedule
    | NoSuchTask
    | UnknownCommand

  datatype Result = Accepted(reply: Reply) | Refused(why: Refusal)

  /** `answer` is the lane the query for another scope's lanes returns first. */
  datatype Action =
    | ListTasks
    | ScheduleTask(scope: Option<nat>, answer: Option<ConversationId>, prompt: string, kind: ScheduleKind,
                   value: ScheduleValue, grouped: bool)
    | PauseTask(task: TaskId)
    | CancelTask(task: TaskId)
    | ResumeTask(task: TaskId)
    | UpdateTask(task: TaskId, newPrompt: Option<string>, newKind: Option<ScheduleKind>,
      newValue: Option<ScheduleValue>)
    | OtherAction(task: TaskId)

  datatype CommandKey = CommandKey(conversation: ConversationId, command: nat)

  datatype Tables = Tables(
    lanes: map<ConversationId, Lane>,
    tasks: map<TaskId, Task>,
    runs: map<RunId, Run>,
    commands: map<CommandKey, Result>)

  const NO_TABLES := Tables(map[], map[], map[], map[])

  const MAIN := 0

  // ---- Reading the tables -------------------------------------------------------------------------

  predicate Open(r: Run) {
    r.status == ReadyRun || r.status == Enqueued || r.status == Started
  }

  predicate OpenRunOf(runs: map<RunId, Run>, task: TaskId, r: RunId) {
    r in runs && r.task == task && Open(runs[r])
  }

  predicate OpenRunIn(runs: map<RunId, Run>, conversation: ConversationId, r: RunId) {
    r in runs && runs[r].conversation == conversation && Open(runs[r])
  }

  predicate TaskBusy(s: Tables, task: TaskId) {
    exists r :: r in s.runs && OpenRunOf(s.runs, task, r)
  }

  predicate ConversationBusy(s: Tables, conversation: ConversationId) {
    exists r :: r in s.runs && OpenRunIn(s.runs, conversation, r)
  }

  predicate Visible(scope: nat, target: nat) {
    scope == MAIN || scope == target
  }

  function NextRun(calendar: Calendar, kind: ScheduleKind, value: ScheduleValue, now: Time): Option<Time> {
    match kind
    case Interval => if value.ms.Some? && value.ms.value > 0 then Some(now + value.ms.value) else None
    case Cron => if value.cron.Some? then Some(calendar(value.cron.value, now)) else None
    case Once => value.date
    case OtherKind => None
  }

  // ---- Commands -------------------------------------------------------------------------------------

  function Register(s: Tables, conversation: ConversationId, lane: Lane): Tables {
    s.(lanes := s.lanes[conversation := lane])
  }

  predicate IsTarget(s: Tables, conversation: ConversationId, scope: nat) {
    conversation in s.lanes && s.lanes[conversation].scope == scope && !s.lanes[conversation].key.RunLane?
  }

  function PutTask(s: Tables, id: TaskId, t: Task): Tables {
    s.(tasks := s.tasks[id := t])
  }

  function Schedule(calendar: Calendar, s: Tables, source: ConversationId, id: TaskId, action: Action, now: Time)
    : (Result, Tables)
    requires source in s.lanes && action.ScheduleTask?
  {
    var own := s.lanes[source].scope;
    var scope := if action.scope.Some? then action.scope.value else own;
    if !Visible(own, scope) then (Refused(OtherScope), s)
    else if scope != own && (action.answer.None? || !IsTarget(s, action.answer.value, scope)) then
      (Refused(NoTarget), s)
    else
      var target := if scope != own then action.answer.value else source;
      if Trim(action.prompt) == "" then (Refused(NoPrompt), s)
      else
        var next := NextRun(calendar, action.kind, action.value, now);
        if next.None? then (Refused(BadSchedule), s)
        else
          var task := Task(target, s.lanes[target].scope, action.prompt, action.kind, action.value, action.grouped,
                           next, Active, None);
          (Accepted(ScheduledAs(id, next.value)), PutTask(s, id, task))
  }

  /** Ready runs of a cancelled task are withdrawn; a submitted one is not revoked. */
  function WithdrawnRun(r: Run): Run {
    if r.status == ReadyRun then r.(status := CancelledRun) else r
  }

  function Withdraw(runs: map<RunId, Run>, task: TaskId): map<RunId, Run> {
    map r | r in runs :: if r.task == task then WithdrawnRun(runs[r]) else runs[r]
  }

  function Cancel(s: Tables, id: TaskId): Tables
    requires id in s.tasks
  {
    PutTask(s, id, s.tasks[id].(status := Cancelled, next := None)).(runs := Withdraw(s.runs, id))
  }

  function Resume(calendar: Calendar, s: Tables, id: TaskId, now: Time): (Result, Tables)
    requires id in s.tasks
  {
    var t := s.tasks[id];
    if TaskBusy(s, id) then (Accepted(TaskResumed), PutTask(s, id, t.(status := Active, next := None)))
    else
      var next := NextRun(calendar, t.kind, t.value, now);
      if next.None? then (Refused(BadSchedule), s)
      else (Accepted(TaskResumed), PutTask(s, id, t.(status := Active, next := next)))
  }

  function Update(calendar: Calendar, s: Tables, action: Action, now: Time): (Result, Tables)
    requires action.UpdateTask? && action.task in s.tasks
  {
    var t := s.tasks[action.task];
    var prompt := if action.newPrompt.Some? then action.newPrompt.value else t.prompt;
    if Trim(prompt) == "" then (Refused(NoPrompt), s)
    else
      var kind := if action.newKind.Some? then action.newKind.value else t.kind;
      var value := if action.newValue.Some? then action.newValue.value else t.value;
      var next := NextRun(calendar, kind, value, now);
      if next.None? then (Refused(BadSchedule), s)
      else
        var task := t.(prompt := prompt, kind := kind, value := value,
                       next := if TaskBusy(s, action.task) then None else next);
        (Accepted(TaskUpdated), PutTask(s, action.task, task))
  }

  function VisibleTasks(s: Tables, scope: nat): set<TaskId> {
    set id | id in s.tasks && s.tasks[id].status != Cancelled && Visible(scope, s.tasks[id].scope)
  }

  function Perform(calendar: Calendar, s: Tables, source: ConversationId, id: TaskId, action: Action, now: Time)
    : (Result, Tables)
  {
    if source !in s.lanes then (Refused(NotRegistered), s)
    else
      var own := s.lanes[source].scope;
      if action.ListTasks? then (Accepted(Listed(VisibleTasks(s, own))), s)
      else if action.ScheduleTask? then Schedule(calendar, s, source, id, action, now)
      else if action.task !in s.tasks || s.tasks[action.task].status == Cancelled ||
        !Visible(own, s.tasks[action.task].scope) then
        (Refused(NoSuchTask), s)
      else
        match action
        case PauseTask(t) => (Accepted(TaskPaused), PutTask(s, t, s.tasks[t].(status := Paused)))
        case CancelTask(t) => (Accepted(TaskCancelled), Cancel(s, t))
        case ResumeTask(t) => Resume(calendar, s, t, now)
        case UpdateTask(_, _, _, _) => Update(calendar, s, action, now)
        case OtherAction(_) => (Refused(UnknownCommand), s)
  }

  /** A repeated command returns its first result; the result of any other is recorded. */
  function Execute(calendar: Calendar, s: Tables, source: ConversationId, command: nat, action: Action, now: Time)
    : (Result, Tables)
  {
    var key := CommandKey(source, command);
    if key in s.commands then (s.commands[key], s)
    else
      var (result, after) := Perform(calendar, s, source, TaskId(source, command), action, now);
      (result, after.(commands := after.commands[key := result]))
  }

  // ---- Occurrences ----------------------------------------------------------------------------------

  predicate Due(s: Tables, id: TaskId, platform: nat, now: Time) {
    && id in s.tasks
    && s.tasks[id].conversation in s.lanes
    && s.lanes[s.tasks[id].conversation].platform == platform
    && s.tasks[id].status == Active
    && s.tasks[id].next.Some?
    && s.tasks[id].next.value <= now
  }

  function NextRunId(s: Tables, id: TaskId): RunId
    requires id in s.tasks && s.tasks[id].next.Some?
  {
    RunId(id, s.tasks[id].next.value)
  }

  /** The run a due task would get: in its own conversation, or in a fresh isolated one. */
  function Occurrence(s: Tables, id: TaskId): Run
    requires id in s.tasks && s.tasks[id].next.Some? && s.tasks[id].conversation in s.lanes
  {
    var t, run := s.tasks[id], NextRunId(s, id);
    var origin := s.lanes[t.conversation];
    if t.grouped then Run(t.conversation, ReadyRun, t.prompt, origin)
    else Run(RunConversation(run), ReadyRun, t.prompt, origin.(key := RunLane(origin.key, run)))
  }

  /** INSERT OR IGNORE of the run, and the task waits for its outcome. */
  function Reserve(s: Tables, id: TaskId): Tables
    requires id in s.tasks && s.tasks[id].next.Some? && s.tasks[id].conversation in s.lanes
  {
    var run, occurrence := NextRunId(s, id), Occurrence(s, id);
    Tables(
      s.lanes[occurrence.conversation := occurrence.lane],
      s.tasks[id := s.tasks[id].(next := None)],
      if run in s.runs then s.runs else s.runs[run := occurrence],
      s.commands)
  }

  /** A group task waits while its conversation has an open run. */
  function Consider(s: Tables, id: TaskId, platform: nat, now: Time): Tables {
    if !Due(s, id, platform, now) then s
    else if s.tasks[id].grouped && ConversationBusy(s, s.tasks[id].conversation) then s
    else Reserve(s, id)
  }

  /** One sweep over the due tasks, in the order the query returned them. */
  function Sweep(s: Tables, order: seq<TaskId>, platform: nat, now: Time): Tables {
    if order == [] then s
    else Consider(Sweep(s, order[..|order| - 1], platform, now), order[|order| - 1], platform, now)
  }

  function Enqueue(s: Tables, run: RunId): Tables {
    if run in s.runs && s.runs[run].status == ReadyRun then
      s.(runs := s.runs[run := s.runs[run].(status := Enqueued)])
    else s
  }

  // ---- Observations -----------------------------------------------------------------------------------

  /** What the scheduler reads off one event of the agent-server's log. */
  datatype Sighting = Sighting(id: EventId, terminal: bool, failed: bool, reconcile: bool)

  function SetStatus(s: Tables, run: RunId, status: RunStatus): Tables
    requires run in s.runs
  {
    s.(runs := s.runs[run := s.runs[run].(status := status)])
  }

  /** The task after a run of it ended. None: its schedule cannot be read, and the commit rolls back. */
  function AfterRun(calendar: Calendar, t: Task, e: Sighting, now: Time): Option<Task> {
    var status := if e.reconcile then Paused else t.status;
    if t.kind == Once then
      Some(t.(next := None, lastRun := Some(now), status := if status == Active then Completed else status))
    else if status == Active then
      var next := NextRun(calendar, t.kind, t.value, now);
      if next.None? then None else Some(t.(next := next, lastRun := Some(now), status := status))
    else Some(t.(next := None, lastRun := Some(now), status := status))
  }

  function FinishRun(calendar: Calendar, s: Tables, run: RunId, e: Sighting, now: Time): Tables
    requires run in s.runs
  {
    if run.task !in s.tasks then s
    else
      var task := AfterRun(calendar, s.tasks[run.task], e, now);
      if task.None? then s
      else PutTask(SetStatus(s, run, if e.failed then FailedRun else DoneRun), run.task, task.value)
  }

  /** What one event does to one open run of its conversation. */
  function Observe(calendar: Calendar, s: Tables, run: RunId, e: Sighting, now: Time): Tables {
    if run !in s.runs || !Open(s.runs[run]) then s
    else
      var r := s.runs[run];
      var seen := if e.id == Inbound(r.lane.platform, Scheduled(run)) then SetStatus(s, run, Started) else s;
      if r.status == Started && (e.terminal || e.failed) then FinishRun(calendar, seen, run, e, now) else seen
  }

  // ---- Any history ------------------------------------------------------------------------------------

  datatype Op =
    | OpRegister(conversation: ConversationId, lane: Lane)
    | OpExecute(conversation: ConversationId, command: nat, action: Action)
    | OpSweep(order: seq<TaskId>, platform: nat)
    | OpEnqueue(run: RunId)
    | OpObserve(run: RunId, event: Sighting)

  datatype Call = Call(op: Op, now: Time)

  function Apply(calendar: Calendar, s: Tables, call: Call): Tables {
    match call.op
    case OpRegister(conversation, lane) => Register(s, conversation, lane)
    case OpExecute(conversation, command, action) => Execute(calendar, s, conversation, command, action, call.now).1
    case OpSweep(order, platform) => Sweep(s, order, platform, call.now)
    case OpEnqueue(run) => Enqueue(s, run)
    case OpObserve(run, event) => Observe(calendar, s, run, event, call.now)
  }

  /** The tables after a whole history of calls. */
  function History(calendar: Calendar, calls: seq<Call>): Tables {
    if calls == [] then NO_TABLES
    else Apply(calendar, History(calendar, calls[..|calls| - 1]), calls[|calls| - 1])
  }

  /** An isolated run's conversation id is its own: nobody else registers one before the run exists. */
  predicate OwnRegistrations(calendar: Calendar, calls: seq<Call>) {
    calls == [] ||
    (var before := calls[..|calls| - 1];
     var op := calls[|calls| - 1].op;
     && OwnRegistrations(calendar, before)
     && (op.OpRegister? ==> op.conversation.ChatConversation? || op.conversation in History(calendar, before).lanes))
  }
}
