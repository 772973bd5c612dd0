/**
 What a caller of the scheduler gets, field by field: when a task runs next, what each command, sweep and
 observation does to the one task and run it is about, and that it leaves the others alone.
 */
module ScheduleLaws {
  import opened Identities
  import opened AgentEvents
  import opened TaskSchedule
  import opened ScheduleInvariants

  // ---- When a task runs next --------------------------------------------------------------------

  /** An interval from now, the next cron time after now, or the given date; None where the value cannot be read. */
  lemma NextMeans(calendar: Calendar, kind: ScheduleKind, value: ScheduleValue, now: Time)
    ensures var next := NextRun(calendar, kind, value, now);
      && (kind == Interval ==> (next.Some? <==> value.ms.Some? && value.ms.value > 0))
      && (kind == Interval && next.Some? ==> next.value == now + value.ms.value > now)
      && (kind == Cron ==> (next.Some? <==> value.cron.Some?))
      && (kind == Cron && next.Some? ==> next.value == calendar(value.cron.value, now) > now)
      && (kind == Once ==> next == value.date)
      && (kind == OtherKind ==> next.None?)
  {
  }

  // ---- Observations -----------------------------------------------------------------------------

  /**
   A task after a run of it ended: a recurring one that is active gets its next time, a one-off one is
   completed, a run to be reconciled pauses its task, and a task that is not active stays as it was.
   */
  predicate AfterEnd(calendar: Calendar, t: Task, after: Task, reconcile: bool, now: Time) {
    && after == t.(next := after.next, status := after.status, lastRun := Some(now))
    && (reconcile ==> after.status == Paused && after.next.None?)
    && (!reconcile && t.status == Active && t.kind == Interval ==>
          after.status == Active && t.value.ms.Some? && after.next == Some(now + t.value.ms.value) &&
            t.value.ms.value > 0)
    && (!reconcile && t.status == Active && t.kind == Cron ==>
          after.status == Active && t.value.cron.Some? && after.next == Some(calendar(t.value.cron.value, now)) &&
          after.next.value > now)
    && (!reconcile && t.status == Active && t.kind == Once ==> after.status == Completed && after.next.None?)
    && (!reconcile && t.status != Active ==> after.status == t.status && after.next.None?)
  }

  /** The event's user message is the one the run was submitted with. */
  predicate StartsRun(r: Run, run: RunId, e: Sighting) {
    e.id == Inbound(r.lane.platform, Scheduled(run))
  }

  /** What one event does to an open run: end it if it was started, start it, or nothing. */
  predicate ObservedAs(calendar: Calendar, s: Tables, after: Tables, run: RunId, e: Sighting, now: Time)
    requires run in s.runs
  {
    var r := s.runs[run];
    && after.lanes == s.lanes && after.commands == s.commands
    && if r.status == Started && (e.terminal || e.failed) then
         && after.runs == s.runs[run := r.(status := if e.failed then FailedRun else DoneRun)]
         && run.task in s.tasks && run.task in after.tasks
         && after.tasks == s.tasks[run.task := after.tasks[run.task]]
         && AfterEnd(calendar, s.tasks[run.task], after.tasks[run.task], e.reconcile, now)
       else
         && after.tasks == s.tasks
         && after.runs == (if StartsRun(r, run, e) then s.runs[run := r.(status := Started)] else s.runs)
  }

  lemma AfterRunMeans(calendar: Calendar, t: Task, e: Sighting, now: Time)
    requires Readable(t)
    ensures AfterRun(calendar, t, e, now).Some?
    ensures AfterEnd(calendar, t, AfterRun(calendar, t, e, now).value, e.reconcile, now)
  {
  }

  lemma ObserveMeans(calendar: Calendar, s: Tables, run: RunId, e: Sighting, now: Time)
    requires Sound(s) && run in s.runs && Open(s.runs[run])
    ensures ObservedAs(calendar, s, Observe(calendar, s, run, e, now), run, e, now)
  {
    RunHasTask(s, run);
    hide Sound, AfterRun, AfterEnd, Readable;
    AfterRunMeans(calendar, s.tasks[run.task], e, now);
    var r := s.runs[run];
    assert r.status == Started ==> r.(status := Started) == r;
    assert s.runs[run := r] == s.runs;
  }

  // ---- Commands ---------------------------------------------------------------------------------

  /** The command changed this task alone. */
  predicate OnlyTask(s: Tables, after: Tables, id: TaskId, t: Task) {
    after == s.(tasks := s.tasks[id := t])
  }

  /** Where a task may be scheduled from a lane: in its own scope, or from the main scope in a lane of another. */
  predicate Reaches(s: Tables, source: ConversationId, action: Action, target: ConversationId)
    requires source in s.lanes && action.ScheduleTask?
  {
    if action.scope.None? || action.scope.value == s.lanes[source].scope then target == source
    else
      && s.lanes[source].scope == MAIN && action.answer == Some(target)
      && target in s.lanes && s.lanes[target].scope == action.scope.value && !s.lanes[target].key.RunLane?
  }

  predicate CanSchedule(calendar: Calendar, s: Tables, source: ConversationId, action: Action, now: Time)
    requires source in s.lanes && action.ScheduleTask?
  {
    && (Reaches(s, source, action, source) || (action.answer.Some? && Reaches(s, source, action, action.answer.value)))
    && Trim(action.prompt) != ""
    && NextRun(calendar, action.kind, action.value, now).Some?
  }

  /** A schedule is accepted exactly if its scope, target, prompt and schedule are; then the task is as asked. */
  lemma ScheduleMeans(calendar: Calendar, s: Tables, source: ConversationId, id: TaskId, action: Action, now: Time)
    requires source in s.lanes && action.ScheduleTask?
    ensures var (result, after) := Schedule(calendar, s, source, id, action, now);
      && (result.Accepted? <==> CanSchedule(calendar, s, source, action, now))
      && (result.Refused? ==> after == s)
      && (result.Accepted? ==>
            && id in after.tasks && OnlyTask(s, after, id, after.tasks[id])
            && var t := after.tasks[id];
               && Reaches(s, source, action, t.conversation)
               && t.conversation in s.lanes && t.scope == s.lanes[t.conversation].scope
               && t.prompt == action.prompt && t.kind == action.kind && t.value == action.value
               && t.grouped == action.grouped && t.status == Active && t.lastRun.None?
               && t.next == NextRun(calendar, action.kind, action.value, now) && t.next.Some?
               && result.reply == ScheduledAs(id, t.next.value))
  {
    hide Trim, NextRun;
  }

  /** The task the command names exists, is not cancelled, and is in a scope its caller may see. */
  predicate MayTouch(s: Tables, source: ConversationId, id: TaskId) {
    && source in s.lanes && id in s.tasks && s.tasks[id].status != Cancelled
    && (s.lanes[source].scope == MAIN || s.lanes[source].scope == s.tasks[id].scope)
  }

  lemma PauseMeans(calendar: Calendar, s: Tables, source: ConversationId, id: TaskId, task: TaskId, now: Time)
    ensures var (result, after) := Perform(calendar, s, source, id, PauseTask(task), now);
      && (result.Accepted? <==> MayTouch(s, source, task))
      && (if MayTouch(s, source, task) then OnlyTask(s, after, task, s.tasks[task].(status := Paused)) else after == s)
  {
  }

  /** Cancelling withdraws the task's runs that are only ready; a submitted one goes on. */
  lemma CancelMeans(calendar: Calendar, s: Tables, source: ConversationId, id: TaskId, task: TaskId, now: Time)
    ensures var (result, after) := Perform(calendar, s, source, id, CancelTask(task), now);
      && (result.Accepted? <==> MayTouch(s, source, task))
      && (!MayTouch(s, source, task) ==> after == s)
      && (MayTouch(s, source, task) ==>
            && after.lanes == s.lanes && after.commands == s.commands
            && after.tasks == s.tasks[task := s.tasks[task].(status := Cancelled, next := None)]
            && after.runs.Keys == s.runs.Keys
            && forall r :: r in s.runs ==>
                 if r.task == task && s.runs[r].status == ReadyRun then
                   after.runs[r] == s.runs[r].(status := CancelledRun)
                 else after.runs[r] == s.runs[r])
  {
  }

  /** The task has a run that has not ended. */
  predicate HasOpenRun(s: Tables, task: TaskId) {
    exists r :: r in s.runs && r.task == task && NotEnded(s.runs[r])
  }

  predicate NotEnded(r: Run) {
    r.status == ReadyRun || r.status == Enqueued || r.status == Started
  }

  lemma BusyMeans(s: Tables, task: TaskId)
    ensures TaskBusy(s, task) <==> HasOpenRun(s, task)
  {
    if r :| r in s.runs && OpenRunOf(s.runs, task, r) {
      assert r.task == task && Open(s.runs[r]);
    }
    if r :| r in s.runs && r.task == task && NotEnded(s.runs[r]) {
      assert OpenRunOf(s.runs, task, r);
    }
  }

  /** A resumed task waits for its open run, or gets its next time. */
  lemma ResumeMeans(calendar: Calendar, s: Tables, source: ConversationId, id: TaskId, task: TaskId, now: Time)
    ensures var (result, after) := Perform(calendar, s, source, id, ResumeTask(task), now);
      && (result.Accepted? ==> MayTouch(s, source, task))
      && (!result.Accepted? ==> after == s)
      && (MayTouch(s, source, task) && HasOpenRun(s, task) ==>
            result.Accepted? && OnlyTask(s, after, task, s.tasks[task].(status := Active, next := None)))
      && (MayTouch(s, source, task) && !HasOpenRun(s, task) ==>
            var t := s.tasks[task];
            var next := NextRun(calendar, t.kind, t.value, now);
            if next.None? then !result.Accepted?
            else result.Accepted? && OnlyTask(s, after, task, t.(status := Active, next := next)))
  {
    BusyMeans(s, task);
    hide TaskBusy, HasOpenRun, NextRun;
  }

  function Or<T>(a: Option<T>, b: T): T {
    if a.Some? then a.value else b
  }

  /** An update keeps what it does not name and is checked whole before it is stored. */
  lemma UpdateMeans(calendar: Calendar, s: Tables, source: ConversationId, id: TaskId, action: Action, now: Time)
    requires action.UpdateTask?
    ensures var (result, after) := Perform(calendar, s, source, id, action, now);
      && (!result.Accepted? ==> after == s)
      && (result.Accepted? ==> MayTouch(s, source, action.task))
      && (MayTouch(s, source, action.task) ==>
            var t := s.tasks[action.task];
            var prompt, kind, value := Or(action.newPrompt, t.prompt), Or(action.newKind, t.kind),
              Or(action.newValue, t.value);
            var next := NextRun(calendar, kind, value, now);
            && (result.Accepted? <==> Trim(prompt) != "" && next.Some?)
            && (result.Accepted? ==>
                  OnlyTask(s, after, action.task,
                           t.(prompt := prompt, kind := kind, value := value,
                              next := if HasOpenRun(s, action.task) then None else next))))
  {
    if action.task in s.tasks {
      BusyMeans(s, action.task);
    }
    hide TaskBusy, HasOpenRun, NextRun, Trim;
  }

  /** A list holds exactly the tasks its caller may touch, and changes nothing. */
  lemma ListMeans(calendar: Calendar, s: Tables, source: ConversationId, id: TaskId, now: Time)
    ensures var (result, after) := Perform(calendar, s, source, id, ListTasks, now);
      && after == s
      && (result.Accepted? <==> source in s.lanes)
      && (result.Accepted? ==> result.reply.Listed? && forall t :: t in result.reply.tasks <==> MayTouch(s, source, t))
  {
  }

  // ---- Sweeps -----------------------------------------------------------------------------------

  /** An active task of the platform whose time has come. */
  predicate TimeHasCome(s: Tables, id: TaskId, platform: nat, now: Time) {
    && id in s.tasks && s.tasks[id].status == Active && s.tasks[id].next.Some? && s.tasks[id].next.value <= now
    && s.tasks[id].conversation in s.lanes && s.lanes[s.tasks[id].conversation].platform == platform
  }

  lemma DueMeans(s: Tables, id: TaskId, platform: nat, now: Time)
    ensures Due(s, id, platform, now) <==> TimeHasCome(s, id, platform, now)
  {
  }

  /** The run of a task's occurrence: in its own conversation, or in one that only this run has. */
  predicate IsOccurrence(t: Task, origin: Lane, run: RunId, r: Run) {
    && r.status == ReadyRun && r.prompt == t.prompt
    && r.conversation == (if t.grouped then t.conversation else RunConversation(run))
    && r.lane == (if t.grouped then origin else origin.(key := RunLane(origin.key, run)))
  }

  /** The task waits for a run under this occurrence's identity: the one it had, or a new one. */
  predicate ReservedAs(s: Tables, after: Tables, id: TaskId)
    requires id in s.tasks && s.tasks[id].next.Some? && s.tasks[id].conversation in s.lanes
  {
    var t := s.tasks[id];
    var run := RunId(id, t.next.value);
    && after.commands == s.commands
    && after.tasks == s.tasks[id := t.(next := None)]
    && run in after.runs
    && (if run in s.runs then after.runs == s.runs
        else after.runs == s.runs[run := after.runs[run]]
             && IsOccurrence(t, s.lanes[t.conversation], run, after.runs[run]))
    && var conversation := if t.grouped then t.conversation else RunConversation(run);
       conversation in after.lanes && after.lanes == s.lanes[conversation := after.lanes[conversation]]
  }

  /** A conversation has a run that has not ended. */
  predicate Occupied(s: Tables, conversation: ConversationId) {
    exists r :: r in s.runs && s.runs[r].conversation == conversation && NotEnded(s.runs[r])
  }

  lemma OccupiedMeans(s: Tables, conversation: ConversationId)
    ensures ConversationBusy(s, conversation) <==> Occupied(s, conversation)
  {
    if r :| r in s.runs && OpenRunIn(s.runs, conversation, r) {
      assert s.runs[r].conversation == conversation && Open(s.runs[r]);
    }
    if r :| r in s.runs && s.runs[r].conversation == conversation && NotEnded(s.runs[r]) {
      assert OpenRunIn(s.runs, conversation, r);
    }
  }

  /** A due task gets its run, except a group task whose conversation is occupied; any other is left alone. */
  lemma ConsiderMeans(s: Tables, id: TaskId, platform: nat, now: Time)
    ensures var after := Consider(s, id, platform, now);
      if !TimeHasCome(s, id, platform, now) || (s.tasks[id].grouped && Occupied(s, s.tasks[id].conversation)) then
        after == s
      else ReservedAs(s, after, id)
  {
    DueMeans(s, id, platform, now);
    if id in s.tasks {
      OccupiedMeans(s, s.tasks[id].conversation);
    }
    hide ConversationBusy, Occupied;
  }

  /** What a whole sweep leaves of a task that was due. */
  predicate Swept(s: Tables, after: Tables, id: TaskId) {
    && id in s.tasks && id in after.tasks && s.tasks[id].next.Some?
    && (|| (after.tasks[id] == s.tasks[id].(next := None) && RunId(id, s.tasks[id].next.value) in after.runs)
        || (s.tasks[id].grouped && after.tasks[id] == s.tasks[id] && Occupied(after, s.tasks[id].conversation)))
  }

  lemma OccupiedStays(a: Tables, b: Tables, conversation: ConversationId)
    requires Occupied(a, conversation) && forall r :: r in a.runs ==> r in b.runs && b.runs[r] == a.runs[r]
    ensures Occupied(b, conversation)
  {
    var r :| r in a.runs && a.runs[r].conversation == conversation && NotEnded(a.runs[r]);
    assert r in b.runs;
  }

  /** No run is lost or changed, and no task but this one. */
  lemma ConsiderKeepsOthers(s: Tables, id: TaskId, platform: nat, now: Time)
    ensures var after := Consider(s, id, platform, now);
      && (forall r :: r in s.runs ==> r in after.runs && after.runs[r] == s.runs[r])
      && after.tasks.Keys == s.tasks.Keys
      && (forall t :: t in s.tasks && t != id ==> after.tasks[t] == s.tasks[t])
      && (forall c :: c in s.lanes && c.ChatConversation? ==> c in after.lanes)
  {
    hide ConversationBusy;
  }

  /** A task that is considered has its run or waits for its occupied conversation. */
  lemma SweptNow(s: Tables, mid: Tables, id: TaskId, platform: nat, now: Time)
    requires id in s.tasks && id in mid.tasks && mid.tasks[id] == s.tasks[id] && Due(mid, id, platform, now)
    ensures Swept(s, Consider(mid, id, platform, now), id)
  {
    DueMeans(mid, id, platform, now);
    ConsiderMeans(mid, id, platform, now);
    hide Consider, Occupied, Due;
  }

  /** Considering another task later changes nothing of that. */
  lemma SweptStays(s: Tables, mid: Tables, id: TaskId, other: TaskId, platform: nat, now: Time)
    requires Swept(s, mid, id) && id != other
    ensures Swept(s, Consider(mid, other, platform, now), id)
  {
    ConsiderKeepsOthers(mid, other, platform, now);
    hide Consider;
    if Occupied(mid, s.tasks[id].conversation) {
      OccupiedStays(mid, Consider(mid, other, platform, now), s.tasks[id].conversation);
    }
    hide Occupied;
  }

  /** Only a run that is ready becomes enqueued. */
  lemma EnqueueMeans(s: Tables, run: RunId)
    ensures Enqueue(s, run) ==
      if run in s.runs && s.runs[run].status == ReadyRun then
        s.(runs := s.runs[run := s.runs[run].(status := Enqueued)])
      else s
  {
  }
}
