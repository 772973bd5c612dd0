/** What the scheduler keeps over every sequence of commands, sweeps, submissions and observations. */
module ScheduleInvariants {
  import opened Identities
  import opened AgentEvents
  import opened TaskSchedule

  // ---- The invariant ------------------------------------------------------------------------------

  /** Every reference resolves, and an isolated conversation is only known once its run exists. */
  predicate Referential(s: Tables) {
    && (forall id :: id in s.tasks ==> s.tasks[id].conversation in s.lanes)
    && (forall r :: r in s.runs ==> r.task in s.tasks && s.runs[r].conversation in s.lanes)
    && (forall c :: c in s.lanes && c.RunConversation? ==> c.run in s.runs)
  }

  /** A task that has a next run scheduled has no open run. */
  predicate Waiting(s: Tables) {
    forall r :: r in s.runs && r.task in s.tasks && Open(s.runs[r]) ==> s.tasks[r.task].next.None?
  }

  predicate OnePerTask(s: Tables) {
    forall a, b :: a in s.runs && b in s.runs && a.task == b.task && Open(s.runs[a]) && Open(s.runs[b]) ==> a == b
  }

  predicate OnePerConversation(s: Tables) {
    forall a, b :: a in s.runs && b in s.runs && Open(s.runs[a]) && Open(s.runs[b]) && a != b ==>
      s.runs[a].conversation != s.runs[b].conversation
  }

  predicate Readable(t: Task) {
    match t.kind
    case Interval => t.value.ms.Some? && t.value.ms.value > 0
    case Cron => t.value.cron.Some?
    case Once => t.value.date.Some?
    case OtherKind => false
  }

  /** Every task's schedule can be read again when a run of it ends. */
  predicate AllReadable(s: Tables) {
    forall id :: id in s.tasks ==> Readable(s.tasks[id])
  }

  predicate Sound(s: Tables) {
    Referential(s) && Waiting(s) && OnePerTask(s) && OnePerConversation(s) && AllReadable(s)
  }

  // ---- How runs and tables evolve -------------------------------------------------------------------

  /** A run's status only advances: ready, enqueued, started, then done or failed; cancelled only from ready. */
  predicate Advances(a: RunStatus, b: RunStatus) {
    || a == b
    || a == ReadyRun
    || (a == Enqueued && b in {Started, DoneRun, FailedRun})
    || (a == Started && b in {DoneRun, FailedRun})
  }

  predicate RunsAdvance(a: Tables, b: Tables) {
    forall r :: r in a.runs ==>
      && r in b.runs
      && b.runs[r] == a.runs[r].(status := b.runs[r].status)
      && Advances(a.runs[r].status, b.runs[r].status)
  }

  /** Nothing known is forgotten and no recorded command result changes. */
  predicate Grows(a: Tables, b: Tables) {
    && (forall k :: k in a.commands ==> k in b.commands && b.commands[k] == a.commands[k])
    && (forall c :: c in a.lanes ==> c in b.lanes)
    && (forall id :: id in a.tasks ==> id in b.tasks)
  }

  predicate Moves(a: Tables, b: Tables) {
    RunsAdvance(a, b) && Grows(a, b)
  }

  lemma MovesReflexive(s: Tables)
    ensures Moves(s, s)
  {
  }

  lemma MovesTransitive(a: Tables, b: Tables, c: Tables)
    requires Moves(a, b) && Moves(b, c)
    ensures Moves(a, c)
  {
    forall r | r in a.runs
      ensures r in c.runs && c.runs[r] == a.runs[r].(status := c.runs[r].status) &&
        Advances(a.runs[r].status, c.runs[r].status)
    {
      assert r in b.runs;
    }
  }

  // ---- The moves ------------------------------------------------------------------------------------

  lemma RegisterKeeps(s: Tables, conversation: ConversationId, lane: Lane)
    requires Sound(s) && (conversation.ChatConversation? || conversation in s.lanes)
    ensures Sound(Register(s, conversation, lane)) && Moves(s, Register(s, conversation, lane))
  {
  }

  lemma PutTaskKeeps(s: Tables, id: TaskId, t: Task)
    requires Sound(s) && t.conversation in s.lanes && Readable(t)
    requires t.next.Some? ==> !TaskBusy(s, id)
    ensures Sound(PutTask(s, id, t)) && Moves(s, PutTask(s, id, t))
  {
    hide OnePerTask, OnePerConversation, Readable, Open;
    PutTaskWaits(s, id, t);
    hide Waiting;
    SameRuns(s, PutTask(s, id, t));
  }

  lemma PutTaskWaits(s: Tables, id: TaskId, t: Task)
    requires Waiting(s) && (t.next.Some? ==> !TaskBusy(s, id))
    ensures Waiting(PutTask(s, id, t))
  {
    forall r | r in s.runs && r.task == id && Open(s.runs[r]) ensures t.next.None? {
      assert OpenRunOf(s.runs, id, r);
    }
  }

  lemma SameRuns(a: Tables, b: Tables)
    requires a.runs == b.runs && OnePerTask(a) && OnePerConversation(a)
    ensures OnePerTask(b) && OnePerConversation(b)
  {
  }

  /** Changing statuses so that nothing is opened. */
  lemma CloseKeeps(s: Tables, runs: map<RunId, Run>)
    requires Sound(s) && RunsAdvance(s, s.(runs := runs)) && runs.Keys == s.runs.Keys
    requires forall r :: r in runs && Open(runs[r]) ==> Open(s.runs[r])
    ensures Sound(s.(runs := runs)) && Moves(s, s.(runs := runs))
  {
  }

  lemma SetStatusKeeps(s: Tables, run: RunId, status: RunStatus)
    requires Sound(s) && run in s.runs && Open(s.runs[run]) && Advances(s.runs[run].status, status)
    ensures Sound(SetStatus(s, run, status)) && Moves(s, SetStatus(s, run, status))
  {
    hide Sound, Moves;
    CloseKeeps(s, SetStatus(s, run, status).runs);
  }

  lemma WithdrawKeeps(s: Tables, task: TaskId)
    requires Sound(s)
    ensures Sound(s.(runs := Withdraw(s.runs, task))) && Moves(s, s.(runs := Withdraw(s.runs, task)))
  {
    hide Sound, Moves;
    CloseKeeps(s, Withdraw(s.runs, task));
  }

  // ---- Commands ---------------------------------------------------------------------------------------

  lemma NextIsReadable(calendar: Calendar, kind: ScheduleKind, value: ScheduleValue, now: Time, t: Task)
    requires t.kind == kind && t.value == value
    ensures NextRun(calendar, kind, value, now).Some? <==> Readable(t)
  {
  }

  lemma TaskFacts(s: Tables, id: TaskId)
    requires Sound(s) && id in s.tasks
    ensures s.tasks[id].conversation in s.lanes && Readable(s.tasks[id])
    ensures s.tasks[id].next.Some? ==> !TaskBusy(s, id)
  {
    forall r | r in s.runs && s.tasks[id].next.Some? ensures !OpenRunOf(s.runs, id, r) {
    }
  }

  lemma ScheduleKeeps(calendar: Calendar, s: Tables, source: ConversationId, id: TaskId, action: Action, now: Time)
    requires Sound(s) && source in s.lanes && action.ScheduleTask? && id !in s.tasks
    ensures Sound(Schedule(calendar, s, source, id, action, now).1)
    ensures Moves(s, Schedule(calendar, s, source, id, action, now).1)
  {
    FreshTaskIsIdle(s, id);
    MovesReflexive(s);
    hide Sound, Moves, TaskBusy, Trim, Readable, NextRun;
    var after := Schedule(calendar, s, source, id, action, now).1;
    if after != s {
      NextIsReadable(calendar, action.kind, action.value, now, after.tasks[id]);
      PutTaskKeeps(s, id, after.tasks[id]);
    }
  }

  lemma FreshTaskIsIdle(s: Tables, id: TaskId)
    requires Sound(s) && id !in s.tasks
    ensures !TaskBusy(s, id)
  {
    forall r | r in s.runs ensures !OpenRunOf(s.runs, id, r) {
    }
  }

  lemma CancelKeeps(s: Tables, id: TaskId)
    requires Sound(s) && id in s.tasks
    ensures Sound(Cancel(s, id)) && Moves(s, Cancel(s, id))
  {
    TaskFacts(s, id);
    hide Sound, Moves, TaskBusy, Readable;
    var put := PutTask(s, id, s.tasks[id].(status := Cancelled, next := None));
    SameSchedule(s.tasks[id], put.tasks[id]);
    PutTaskKeeps(s, id, put.tasks[id]);
    WithdrawKeeps(put, id);
    MovesTransitive(s, put, Cancel(s, id));
  }

  lemma SameSchedule(a: Task, b: Task)
    requires a.kind == b.kind && a.value == b.value
    ensures Readable(a) == Readable(b)
  {
  }

  lemma ResumeKeeps(calendar: Calendar, s: Tables, id: TaskId, now: Time)
    requires Sound(s) && id in s.tasks
    ensures Sound(Resume(calendar, s, id, now).1) && Moves(s, Resume(calendar, s, id, now).1)
  {
    TaskFacts(s, id);
    MovesReflexive(s);
    hide Sound, Moves, TaskBusy, Readable, NextRun;
    var after := Resume(calendar, s, id, now).1;
    if after != s {
      SameSchedule(s.tasks[id], after.tasks[id]);
      PutTaskKeeps(s, id, after.tasks[id]);
    }
  }

  lemma UpdateKeeps(calendar: Calendar, s: Tables, action: Action, now: Time)
    requires Sound(s) && action.UpdateTask? && action.task in s.tasks
    ensures Sound(Update(calendar, s, action, now).1) && Moves(s, Update(calendar, s, action, now).1)
  {
    TaskFacts(s, action.task);
    MovesReflexive(s);
    hide Sound, Moves, TaskBusy, Readable, NextRun, Trim;
    var after := Update(calendar, s, action, now).1;
    if after != s {
      var t := after.tasks[action.task];
      NextIsReadable(calendar, t.kind, t.value, now, t);
      PutTaskKeeps(s, action.task, t);
    }
  }

  lemma PauseKeeps(s: Tables, id: TaskId)
    requires Sound(s) && id in s.tasks
    ensures var after := PutTask(s, id, s.tasks[id].(status := Paused)); Sound(after) && Moves(s, after)
  {
    TaskFacts(s, id);
    hide Sound, Moves, TaskBusy, Readable;
    SameSchedule(s.tasks[id], s.tasks[id].(status := Paused));
    PutTaskKeeps(s, id, s.tasks[id].(status := Paused));
  }

  lemma PerformKeeps(calendar: Calendar, s: Tables, source: ConversationId, id: TaskId, action: Action, now: Time)
    requires Sound(s) && (action.ScheduleTask? ==> id !in s.tasks)
    ensures Sound(Perform(calendar, s, source, id, action, now).1)
    ensures Moves(s, Perform(calendar, s, source, id, action, now).1)
  {
    hide Sound, Moves, Schedule, Cancel, Resume, Update, VisibleTasks;
    MovesReflexive(s);
    if source in s.lanes {
      if action.ScheduleTask? {
        ScheduleKeeps(calendar, s, source, id, action, now);
      } else if !action.ListTasks? && action.task in s.tasks {
        PauseKeeps(s, action.task);
        CancelKeeps(s, action.task);
        ResumeKeeps(calendar, s, action.task, now);
        if action.UpdateTask? { UpdateKeeps(calendar, s, action, now); }
      }
    }
  }

  lemma RecordKeeps(s: Tables, key: CommandKey, result: Result)
    requires Sound(s) && key !in s.commands
    ensures Sound(s.(commands := s.commands[key := result])) && Moves(s, s.(commands := s.commands[key := result]))
  {
    hide OnePerTask, OnePerConversation, Readable, Open;
    SameRuns(s, s.(commands := s.commands[key := result]));
    SameWaiting(s, s.(commands := s.commands[key := result]));
    hide Waiting;
  }

  lemma SameWaiting(a: Tables, b: Tables)
    requires Waiting(a) && a.runs == b.runs && a.tasks == b.tasks
    ensures Waiting(b)
  {
  }

  /** A task exists only if the command that created it is recorded, so an id is created once. */
  predicate TasksAreRecorded(s: Tables) {
    forall id :: id in s.tasks ==> CommandKey(id.creator, id.command) in s.commands
  }

  lemma CommandsUntouched(calendar: Calendar, s: Tables, source: ConversationId, id: TaskId, action: Action, now: Time)
    ensures var after := Perform(calendar, s, source, id, action, now).1;
      && after.commands == s.commands
      && (forall t :: t in after.tasks ==> t in s.tasks || t == id)
  {
    hide NextRun, Trim, TaskBusy, Visible, IsTarget, VisibleTasks, Withdraw;
  }

  lemma ExecuteKeeps(calendar: Calendar, s: Tables, source: ConversationId, command: nat, action: Action, now: Time)
    requires Sound(s) && TasksAreRecorded(s)
    ensures var after := Execute(calendar, s, source, command, action, now).1;
      Sound(after) && Moves(s, after) && TasksAreRecorded(after)
  {
    hide Sound, Moves, Perform;
    MovesReflexive(s);
    var key, id := CommandKey(source, command), TaskId(source, command);
    if key !in s.commands {
      var (result, done) := Perform(calendar, s, source, id, action, now);
      PerformKeeps(calendar, s, source, id, action, now);
      CommandsUntouched(calendar, s, source, id, action, now);
      RecordKeeps(done, key, result);
      MovesTransitive(s, done, done.(commands := done.commands[key := result]));
    }
  }

  // ---- Occurrences --------------------------------------------------------------------------------------

  lemma ReserveRefers(s: Tables, id: TaskId)
    requires Sound(s) && id in s.tasks && s.tasks[id].next.Some? && s.tasks[id].conversation in s.lanes
    ensures Referential(Reserve(s, id))
  {
    hide OnePerTask, OnePerConversation, Waiting, AllReadable;
  }

  lemma ReserveReadable(s: Tables, id: TaskId)
    requires AllReadable(s) && id in s.tasks && s.tasks[id].next.Some? && s.tasks[id].conversation in s.lanes
    ensures AllReadable(Reserve(s, id))
  {
    hide Occurrence;
  }

  lemma ReserveMoves(s: Tables, id: TaskId)
    requires id in s.tasks && s.tasks[id].next.Some? && s.tasks[id].conversation in s.lanes
    ensures Moves(s, Reserve(s, id))
  {
    hide Occurrence;
  }

  lemma ReserveWaits(s: Tables, id: TaskId)
    requires Sound(s) && id in s.tasks && s.tasks[id].next.Some? && s.tasks[id].conversation in s.lanes
    ensures Waiting(Reserve(s, id)) && OnePerTask(Reserve(s, id))
  {
    hide OnePerConversation, AllReadable, Readable;
    var after := Reserve(s, id);
    forall r | r in s.runs && Open(s.runs[r]) ensures r.task != id {
      assert s.tasks[r.task].next.None?;
    }
  }

  lemma ReserveOnePerConversation(s: Tables, id: TaskId)
    requires Sound(s) && id in s.tasks && s.tasks[id].next.Some? && s.tasks[id].conversation in s.lanes
    requires s.tasks[id].grouped ==> !ConversationBusy(s, s.tasks[id].conversation)
    ensures OnePerConversation(Reserve(s, id))
  {
    var run, occurrence := NextRunId(s, id), Occurrence(s, id);
    if run !in s.runs {
      forall r | r in s.runs && Open(s.runs[r]) ensures s.runs[r].conversation != occurrence.conversation {
        if s.tasks[id].grouped {
          assert !OpenRunIn(s.runs, occurrence.conversation, r);
        }
      }
    }
    hide Referential, Waiting, OnePerTask, AllReadable, Sound, ConversationBusy;
  }

  lemma ConsiderKeeps(s: Tables, id: TaskId, platform: nat, now: Time)
    requires Sound(s)
    ensures Sound(Consider(s, id, platform, now)) && Moves(s, Consider(s, id, platform, now))
  {
    hide Referential, Waiting, OnePerTask, OnePerConversation, AllReadable, Moves, Reserve, ConversationBusy;
    MovesReflexive(s);
    if Due(s, id, platform, now) {
      ReserveRefers(s, id);
      ReserveReadable(s, id);
      ReserveMoves(s, id);
      ReserveWaits(s, id);
      if !(s.tasks[id].grouped && ConversationBusy(s, s.tasks[id].conversation)) {
        ReserveOnePerConversation(s, id);
      }
    }
  }

  lemma {:induction false} SweepKeeps(s: Tables, order: seq<TaskId>, platform: nat, now: Time)
    requires Sound(s)
    ensures Sound(Sweep(s, order, platform, now)) && Moves(s, Sweep(s, order, platform, now))
  {
    hide Sound, Moves, Consider;
    MovesReflexive(s);
    if order != [] {
      var before := Sweep(s, order[..|order| - 1], platform, now);
      SweepKeeps(s, order[..|order| - 1], platform, now);
      ConsiderKeeps(before, order[|order| - 1], platform, now);
      MovesTransitive(s, before, Sweep(s, order, platform, now));
    }
  }

  lemma EnqueueKeeps(s: Tables, run: RunId)
    requires Sound(s)
    ensures Sound(Enqueue(s, run)) && Moves(s, Enqueue(s, run))
  {
    hide Sound, Moves;
    MovesReflexive(s);
    if run in s.runs && s.runs[run].status == ReadyRun {
      SetStatusKeeps(s, run, Enqueued);
    }
  }

  // ---- Observations ---------------------------------------------------------------------------------------

  /** A closed run's task has no other open run. */
  lemma ClosedLeavesTaskIdle(s: Tables, run: RunId, status: RunStatus)
    requires Sound(s) && run in s.runs && Open(s.runs[run]) && (status == DoneRun || status == FailedRun)
    ensures !TaskBusy(SetStatus(s, run, status), run.task)
  {
    var after := SetStatus(s, run, status);
    forall r | r in after.runs ensures !OpenRunOf(after.runs, run.task, r) {
      assert Open(after.runs[r]) ==> Open(s.runs[r]);
    }
  }

  lemma FinishKeeps(calendar: Calendar, s: Tables, run: RunId, e: Sighting, now: Time)
    requires Sound(s) && run in s.runs && s.runs[run].status == Started
    ensures Sound(FinishRun(calendar, s, run, e, now)) && Moves(s, FinishRun(calendar, s, run, e, now))
  {
    hide Sound, Moves, TaskBusy, Readable, NextRun;
    MovesReflexive(s);
    if run.task in s.tasks {
      TaskFacts(s, run.task);
      var status := if e.failed then FailedRun else DoneRun;
      ClosedLeavesTaskIdle(s, run, status);
      var closed := SetStatus(s, run, status);
      SetStatusKeeps(s, run, status);
      var task := AfterRun(calendar, s.tasks[run.task], e, now);
      if task.Some? {
        SameSchedule(s.tasks[run.task], task.value);
        PutTaskKeeps(closed, run.task, task.value);
        MovesTransitive(s, closed, PutTask(closed, run.task, task.value));
      }
    }
  }

  lemma ObserveKeeps(calendar: Calendar, s: Tables, run: RunId, e: Sighting, now: Time)
    requires Sound(s)
    ensures Sound(Observe(calendar, s, run, e, now)) && Moves(s, Observe(calendar, s, run, e, now))
  {
    hide Sound, Moves, FinishRun;
    MovesReflexive(s);
    if run in s.runs && Open(s.runs[run]) {
      var seen := if e.id == Inbound(s.runs[run].lane.platform, Scheduled(run)) then SetStatus(s, run, Started) else s;
      if seen != s { SetStatusKeeps(s, run, Started); }
      if s.runs[run].status == Started && (e.terminal || e.failed) {
        FinishKeeps(calendar, seen, run, e, now);
        MovesTransitive(s, seen, FinishRun(calendar, seen, run, e, now));
      }
    }
  }

  // ---- Every history ------------------------------------------------------------------------------------

  lemma RecordedUnlessExecuted(calendar: Calendar, s: Tables, call: Call)
    requires TasksAreRecorded(s) && Moves(s, Apply(calendar, s, call)) && !call.op.OpExecute?
    ensures TasksAreRecorded(Apply(calendar, s, call))
  {
    hide NextRun, TaskBusy, Moves, ConversationBusy, Sweep;
    if call.op.OpSweep? {
      SweepCreatesNoTask(s, call.op.order, call.op.platform, call.now);
    }
  }

  lemma {:induction false} SweepCreatesNoTask(s: Tables, order: seq<TaskId>, platform: nat, now: Time)
    ensures Sweep(s, order, platform, now).tasks.Keys == s.tasks.Keys
    ensures Sweep(s, order, platform, now).commands == s.commands
  {
    if order != [] {
      hide ConversationBusy, Sweep;
      SweepCreatesNoTask(s, order[..|order| - 1], platform, now);
      SweepStep(s, order, platform, now);
    }
  }

  lemma SweepStep(s: Tables, order: seq<TaskId>, platform: nat, now: Time)
    requires order != []
    ensures Sweep(s, order, platform, now) ==
      Consider(Sweep(s, order[..|order| - 1], platform, now), order[|order| - 1], platform, now)
  {
    hide Consider;
  }

  lemma ApplyKeeps(calendar: Calendar, s: Tables, call: Call)
    requires Sound(s) && TasksAreRecorded(s)
    requires call.op.OpRegister? ==> call.op.conversation.ChatConversation? || call.op.conversation in s.lanes
    ensures var after := Apply(calendar, s, call); Sound(after) && TasksAreRecorded(after) && Moves(s, after)
  {
    hide Sound, Moves, TasksAreRecorded, Execute, Sweep, Enqueue, Observe, Register;
    match call.op
    case OpRegister(conversation, lane) =>
      RegisterKeeps(s, conversation, lane);
      RecordedUnlessExecuted(calendar, s, call);
    case OpExecute(conversation, command, action) =>
      ExecuteKeeps(calendar, s, conversation, command, action, call.now);
    case OpSweep(order, platform) =>
      SweepKeeps(s, order, platform, call.now);
      RecordedUnlessExecuted(calendar, s, call);
    case OpEnqueue(run) =>
      EnqueueKeeps(s, run);
      RecordedUnlessExecuted(calendar, s, call);
    case OpObserve(run, event) =>
      ObserveKeeps(calendar, s, run, event, call.now);
      RecordedUnlessExecuted(calendar, s, call);
  }

  lemma {:induction false} HistoryKeeps(calendar: Calendar, calls: seq<Call>)
    requires OwnRegistrations(calendar, calls)
    ensures Sound(History(calendar, calls)) && TasksAreRecorded(History(calendar, calls))
  {
    if calls != [] {
      hide Sound, TasksAreRecorded, Apply, Moves;
      HistoryKeeps(calendar, calls[..|calls| - 1]);
      ApplyKeeps(calendar, History(calendar, calls[..|calls| - 1]), calls[|calls| - 1]);
    }
  }

  lemma {:induction false} OwnRegistrationsPrefix(calendar: Calendar, calls: seq<Call>, n: nat)
    requires OwnRegistrations(calendar, calls) && n <= |calls|
    ensures OwnRegistrations(calendar, calls[..n])
  {
    if n == |calls| {
      assert calls[..n] == calls;
    } else {
      OwnRegistrationsPrefix(calendar, calls[..|calls| - 1], n);
      assert calls[..|calls| - 1][..n] == calls[..n];
    }
  }

  lemma {:induction false} HistoryMoves(calendar: Calendar, calls: seq<Call>, n: nat)
    requires OwnRegistrations(calendar, calls) && n <= |calls|
    ensures Moves(History(calendar, calls[..n]), History(calendar, calls))
  {
    hide Moves, Apply, Sound, TasksAreRecorded;
    if n == |calls| {
      assert calls[..n] == calls;
      MovesReflexive(History(calendar, calls));
    } else {
      var last := |calls| - 1;
      HistoryMoves(calendar, calls[..last], n);
      assert calls[..last][..n] == calls[..n];
      HistoryKeeps(calendar, calls[..last]);
      ApplyKeeps(calendar, History(calendar, calls[..last]), calls[last]);
      MovesTransitive(History(calendar, calls[..n]), History(calendar, calls[..last]), History(calendar, calls));
    }
  }

  /** A task with a next run scheduled has no open run; a task and a conversation have at most one. */
  lemma OpenRunsAreSingle(calendar: Calendar, calls: seq<Call>, a: RunId, b: RunId)
    requires OwnRegistrations(calendar, calls)
    requires var s := History(calendar, calls);
      a in s.runs && b in s.runs && Open(s.runs[a]) && Open(s.runs[b])
    ensures var s := History(calendar, calls);
      && a.task in s.tasks && s.tasks[a.task].next.None?
      && (a.task == b.task || s.runs[a].conversation == s.runs[b].conversation ==> a == b)
  {
    HistoryKeeps(calendar, calls);
    hide History, OwnRegistrations;
  }

  /** Whatever happens later, a run's status never regresses and the run itself never changes. */
  lemma RunsNeverRegress(calendar: Calendar, before: Tables, after: Tables, r: RunId)
    requires Follows(calendar, before, after) && r in before.runs
    ensures r in after.runs && Advances(before.runs[r].status, after.runs[r].status)
    ensures after.runs[r] == before.runs[r].(status := after.runs[r].status)
  {
    hide History, OwnRegistrations;
    var calls, n: nat :|
      OwnRegistrations(calendar, calls) && n <= |calls| &&
      before == History(calendar, calls[..n]) && after == History(calendar, calls);
    HistoryMoves(calendar, calls, n);
  }

  /** Two states of one history, the second not before the first. */
  ghost predicate Follows(calendar: Calendar, before: Tables, after: Tables) {
    exists calls: seq<Call>, n: nat ::
      OwnRegistrations(calendar, calls) && n <= |calls| &&
      before == History(calendar, calls[..n]) && after == History(calendar, calls)
  }

  /** A failing command changes no task, run or lane; only its result is recorded. */
  lemma RefusedChangesNothing(calendar: Calendar, s: Tables, source: ConversationId, command: nat, action: Action,
                              now: Time)
    ensures var (result, after) := Execute(calendar, s, source, command, action, now);
      result.Refused? ==> after == s.(commands := after.commands)
  {
    hide NextRun, TaskBusy, Trim, VisibleTasks, Cancel, Visible, IsTarget;
  }

  /** However much later it is repeated, a command returns its first result and changes nothing. */
  lemma RepeatedChangesNothing(calendar: Calendar, calls: seq<Call>, i: nat, j: nat)
    requires OwnRegistrations(calendar, calls) && i < j < |calls|
    requires calls[i].op.OpExecute? && calls[j].op.OpExecute?
    requires calls[i].op.conversation == calls[j].op.conversation && calls[i].op.command == calls[j].op.command
    ensures var first, again := History(calendar, calls[..i]), History(calendar, calls[..j]);
      var source, command := calls[i].op.conversation, calls[i].op.command;
      Execute(calendar, again, source, command, calls[j].op.action, calls[j].now) ==
        (Execute(calendar, first, source, command, calls[i].op.action, calls[i].now).0, again)
  {
    hide Perform, Moves;
    var source, command := calls[i].op.conversation, calls[i].op.command;
    assert calls[..i + 1][..i] == calls[..i];
    assert calls[..j][..i + 1] == calls[..i + 1];
    OwnRegistrationsPrefix(calendar, calls, j);
    HistoryMoves(calendar, calls[..j], i + 1);
    MovesKeepsCommands(History(calendar, calls[..i + 1]), History(calendar, calls[..j]), CommandKey(source, command));
  }

  lemma MovesKeepsCommands(a: Tables, b: Tables, key: CommandKey)
    requires Moves(a, b) && key in a.commands
    ensures key in b.commands && b.commands[key] == a.commands[key]
  {
  }

  /** The event that ends a started run always ends it: the rollback branch is never taken. */
  lemma EndedRunsClose(calendar: Calendar, calls: seq<Call>, run: RunId, e: Sighting, now: Time)
    requires OwnRegistrations(calendar, calls)
    requires run in History(calendar, calls).runs && History(calendar, calls).runs[run].status == Started
    requires e.terminal || e.failed
    ensures var after := Observe(calendar, History(calendar, calls), run, e, now);
      && run in after.runs && run.task in after.tasks
      && after.runs[run].status == (if e.failed then FailedRun else DoneRun)
      && after.tasks[run.task].lastRun == Some(now)
  {
    hide History, Sound, OwnRegistrations, TasksAreRecorded, AfterRun;
    HistoryKeeps(calendar, calls);
    var s := History(calendar, calls);
    RunHasTask(s, run);
    AfterRunExists(calendar, s.tasks[run.task], e, now);
  }

  lemma RunHasTask(s: Tables, run: RunId)
    requires Sound(s) && run in s.runs
    ensures run.task in s.tasks && Readable(s.tasks[run.task])
  {
  }

  lemma AfterRunExists(calendar: Calendar, t: Task, e: Sighting, now: Time)
    requires Readable(t)
    ensures AfterRun(calendar, t, e, now).Some? && AfterRun(calendar, t, e, now).value.lastRun == Some(now)
  {
  }

  // ---- Cancelled tasks --------------------------------------------------------------------------------

  /** The observation parks the task of a started run: it sets the task to paused whatever it was. */
  predicate Revives(s: Tables, call: Call, id: TaskId) {
    && call.op.OpObserve?
    && call.op.run.task == id && call.op.run in s.runs && s.runs[call.op.run].status == Started
    && (call.op.event.terminal || call.op.event.failed) && call.op.event.reconcile
  }

  lemma {:induction false} SweepKeepsStatus(s: Tables, order: seq<TaskId>, platform: nat, now: Time, id: TaskId)
    requires id in s.tasks
    ensures id in Sweep(s, order, platform, now).tasks
    ensures Sweep(s, order, platform, now).tasks[id].status == s.tasks[id].status
  {
    if order != [] {
      hide ConversationBusy, Sweep;
      SweepKeepsStatus(s, order[..|order| - 1], platform, now, id);
      SweepStep(s, order, platform, now);
    } else {
      assert Sweep(s, order, platform, now) == s;
    }
  }

  lemma ExecuteKeepsCancelled(calendar: Calendar, s: Tables, source: ConversationId, command: nat, action: Action,
                              now: Time, id: TaskId)
    requires TasksAreRecorded(s) && id in s.tasks && s.tasks[id].status == Cancelled
    ensures var after := Execute(calendar, s, source, command, action, now).1;
      id in after.tasks && after.tasks[id] == s.tasks[id]
  {
    hide NextRun, Trim, TaskBusy, Visible, IsTarget, VisibleTasks, Withdraw;
  }

  /** A cancelled task stays cancelled, except that a run of it found interrupted makes it paused. */
  lemma CancelledUnlessReconciled(calendar: Calendar, s: Tables, call: Call, id: TaskId)
    requires Sound(s) && TasksAreRecorded(s) && id in s.tasks && s.tasks[id].status == Cancelled
    ensures var after := Apply(calendar, s, call);
      && id in after.tasks
      && (after.tasks[id].status == Cancelled <==> !Revives(s, call, id))
  {
    hide Sound, TasksAreRecorded, Execute, Sweep, NextRun;
    match call.op
    case OpRegister(_, _) =>
    case OpExecute(conversation, command, action) =>
      ExecuteKeepsCancelled(calendar, s, conversation, command, action, call.now, id);
    case OpSweep(order, platform) => SweepKeepsStatus(s, order, platform, call.now, id);
    case OpEnqueue(_) =>
    case OpObserve(_, _) =>
  }

  // ---- Scopes -------------------------------------------------------------------------------------------

  /** Everything outside a scope is as it was, and whatever is new lies inside it. */
  predicate StaysInScope(own: nat, a: Tables, b: Tables) {
    && (forall id :: id in a.tasks && !Visible(own, a.tasks[id].scope) ==> id in b.tasks && b.tasks[id] == a.tasks[id])
    && (forall r :: r in a.runs && r.task in a.tasks && !Visible(own, a.tasks[r.task].scope) ==>
          r in b.runs && b.runs[r] == a.runs[r])
    && (forall id :: id in b.tasks && id !in a.tasks ==> Visible(own, b.tasks[id].scope))
    && b.lanes == a.lanes
  }

  lemma PutStaysInScope(own: nat, s: Tables, id: TaskId, t: Task)
    requires if id in s.tasks then Visible(own, s.tasks[id].scope) else Visible(own, t.scope)
    ensures StaysInScope(own, s, PutTask(s, id, t))
  {
    hide Visible;
  }

  lemma CancelStaysInScope(own: nat, s: Tables, id: TaskId)
    requires id in s.tasks && Visible(own, s.tasks[id].scope)
    ensures StaysInScope(own, s, Cancel(s, id))
  {
    hide Visible;
  }

  lemma ScheduleStaysInScope(calendar: Calendar, s: Tables, source: ConversationId, id: TaskId, action: Action,
                             now: Time)
    requires source in s.lanes && action.ScheduleTask? && id !in s.tasks
    ensures StaysInScope(s.lanes[source].scope, s, Schedule(calendar, s, source, id, action, now).1)
  {
    hide StaysInScope, NextRun, Trim;
    var own, after := s.lanes[source].scope, Schedule(calendar, s, source, id, action, now).1;
    NothingLeavesScope(own, s);
    if after != s {
      PutStaysInScope(own, s, id, after.tasks[id]);
    }
  }

  lemma NothingLeavesScope(own: nat, s: Tables)
    ensures StaysInScope(own, s, s)
  {
  }

  /** A command touches only tasks its caller's scope may see, their runs, and at most one new task it may see. */
  lemma CommandsStayInScope(calendar: Calendar, s: Tables, source: ConversationId, command: nat, action: Action,
                            now: Time)
    requires TasksAreRecorded(s) && source in s.lanes
    ensures StaysInScope(s.lanes[source].scope, s, Execute(calendar, s, source, command, action, now).1)
  {
    hide StaysInScope, NextRun, Trim, TaskBusy, VisibleTasks, Cancel, Schedule, Visible;
    var own, id := s.lanes[source].scope, TaskId(source, command);
    NothingLeavesScope(own, s);
    if CommandKey(source, command) !in s.commands {
      var done := Perform(calendar, s, source, id, action, now).1;
      if action.ScheduleTask? {
        ScheduleStaysInScope(calendar, s, source, id, action, now);
      } else if !action.ListTasks? && action.task in s.tasks && Visible(own, s.tasks[action.task].scope) {
        CancelStaysInScope(own, s, action.task);
        if action.task in done.tasks {
          PutStaysInScope(own, s, action.task, done.tasks[action.task]);
        }
      }
      RecordStaysInScope(own, s, done, Execute(calendar, s, source, command, action, now).1);
    }
  }

  lemma RecordStaysInScope(own: nat, s: Tables, done: Tables, after: Tables)
    requires StaysInScope(own, s, done)
    requires after.tasks == done.tasks && after.runs == done.runs && after.lanes == done.lanes
    ensures StaysInScope(own, s, after)
  {
  }
}
