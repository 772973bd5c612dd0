/** With a clock that never runs backwards, every reservation of a recurring task is a new run. */
module ScheduleClock {
  import opened Identities
  import opened AgentEvents
  import opened TaskSchedule

  // ---- The clock ----------------------------------------------------------------------------------------

  predicate Elapsed(s: Tables, clock: Time) {
    forall r :: r in s.runs ==> r.at <= clock
  }

  /** The next occurrence of a recurring task lies after every occurrence it ever had. */
  predicate NextIsFresh(s: Tables) {
    forall r :: r in s.runs && r.task in s.tasks && s.tasks[r.task].kind != Once && s.tasks[r.task].next.Some? ==>
      r.at < s.tasks[r.task].next.value
  }

  predicate Timely(s: Tables, clock: Time) {
    Elapsed(s, clock) && NextIsFresh(s)
  }

  /** A task whose next run, if it recurs, lies in the future or is the one it had. */
  lemma PutTaskTimely(s: Tables, id: TaskId, t: Task, now: Time)
    requires Timely(s, now)
    requires t.next.Some? && t.kind != Once ==>
      t.next.value > now || (id in s.tasks && s.tasks[id].kind == t.kind && s.tasks[id].next == t.next)
    ensures Timely(PutTask(s, id, t), now)
  {
  }

  lemma NextIsLater(calendar: Calendar, kind: ScheduleKind, value: ScheduleValue, now: Time)
    ensures var next := NextRun(calendar, kind, value, now); next.Some? && kind != Once ==> next.value > now
  {
  }

  lemma SameOccurrences(a: Tables, b: Tables, clock: Time)
    requires Timely(a, clock) && b.runs.Keys == a.runs.Keys && b.tasks == a.tasks
    ensures Timely(b, clock)
  {
  }

  lemma ScheduleTimely(calendar: Calendar, s: Tables, source: ConversationId, id: TaskId, action: Action, now: Time)
    requires Timely(s, now) && source in s.lanes && action.ScheduleTask?
    ensures Timely(Schedule(calendar, s, source, id, action, now).1, now)
  {
    hide Timely, NextRun, Trim, Visible, IsTarget;
    var after := Schedule(calendar, s, source, id, action, now).1;
    if after != s {
      NextIsLater(calendar, action.kind, action.value, now);
      PutTaskTimely(s, id, after.tasks[id], now);
    }
  }

  lemma ResumeTimely(calendar: Calendar, s: Tables, id: TaskId, now: Time)
    requires Timely(s, now) && id in s.tasks
    ensures Timely(Resume(calendar, s, id, now).1, now)
  {
    hide Timely, NextRun, TaskBusy;
    var after := Resume(calendar, s, id, now).1;
    if after != s {
      NextIsLater(calendar, s.tasks[id].kind, s.tasks[id].value, now);
      PutTaskTimely(s, id, after.tasks[id], now);
    }
  }

  lemma UpdateTimely(calendar: Calendar, s: Tables, action: Action, now: Time)
    requires Timely(s, now) && action.UpdateTask? && action.task in s.tasks
    ensures Timely(Update(calendar, s, action, now).1, now)
  {
    hide Timely, NextRun, TaskBusy, Trim;
    var after := Update(calendar, s, action, now).1;
    if after != s {
      var t := after.tasks[action.task];
      NextIsLater(calendar, t.kind, t.value, now);
      PutTaskTimely(s, action.task, t, now);
    }
  }

  lemma CancelTimely(s: Tables, id: TaskId, now: Time)
    requires Timely(s, now) && id in s.tasks
    ensures Timely(Cancel(s, id), now) && Timely(PutTask(s, id, s.tasks[id].(status := Paused)), now)
  {
    hide Timely;
    PutTaskTimely(s, id, s.tasks[id].(status := Paused), now);
    var put := PutTask(s, id, s.tasks[id].(status := Cancelled, next := None));
    PutTaskTimely(s, id, put.tasks[id], now);
    SameOccurrences(put, Cancel(s, id), now);
  }

  lemma ExecuteTimely(calendar: Calendar, s: Tables, source: ConversationId, command: nat, action: Action, now: Time)
    requires Timely(s, now)
    ensures Timely(Execute(calendar, s, source, command, action, now).1, now)
  {
    hide Timely, Schedule, Resume, Update, Cancel, VisibleTasks, PutTask;
    if source in s.lanes {
      if action.ScheduleTask? {
        ScheduleTimely(calendar, s, source, TaskId(source, command), action, now);
      } else if !action.ListTasks? && action.task in s.tasks {
        CancelTimely(s, action.task, now);
        ResumeTimely(calendar, s, action.task, now);
        if action.UpdateTask? { UpdateTimely(calendar, s, action, now); }
      }
    }
    var done := Perform(calendar, s, source, TaskId(source, command), action, now).1;
    assert Timely(done, now);
    hide Perform;
    if CommandKey(source, command) !in s.commands {
      SameOccurrences(done, Execute(calendar, s, source, command, action, now).1, now);
    }
  }

  lemma ConsiderTimely(s: Tables, id: TaskId, platform: nat, now: Time)
    requires Timely(s, now)
    ensures Timely(Consider(s, id, platform, now), now)
  {
    hide ConversationBusy, Occurrence;
  }

  lemma {:induction false} SweepTimely(s: Tables, order: seq<TaskId>, platform: nat, now: Time)
    requires Timely(s, now)
    ensures Timely(Sweep(s, order, platform, now), now)
  {
    hide Timely, Consider;
    if order != [] {
      SweepTimely(s, order[..|order| - 1], platform, now);
      ConsiderTimely(Sweep(s, order[..|order| - 1], platform, now), order[|order| - 1], platform, now);
    }
  }

  lemma FinishTimely(calendar: Calendar, s: Tables, run: RunId, e: Sighting, now: Time)
    requires Timely(s, now) && run in s.runs
    ensures Timely(FinishRun(calendar, s, run, e, now), now)
  {
    hide Timely, NextRun;
    if run.task in s.tasks {
      var closed := SetStatus(s, run, if e.failed then FailedRun else DoneRun);
      SameOccurrences(s, closed, now);
      NextIsLater(calendar, s.tasks[run.task].kind, s.tasks[run.task].value, now);
      var task := AfterRun(calendar, s.tasks[run.task], e, now);
      if task.Some? { PutTaskTimely(closed, run.task, task.value, now); }
    }
  }

  lemma ApplyTimely(calendar: Calendar, s: Tables, call: Call)
    requires Timely(s, call.now)
    ensures Timely(Apply(calendar, s, call), call.now)
  {
    hide Timely, Execute, Sweep, FinishRun;
    var now := call.now;
    match call.op
    case OpRegister(conversation, lane) => SameOccurrences(s, Register(s, conversation, lane), now);
    case OpExecute(conversation, command, action) => ExecuteTimely(calendar, s, conversation, command, action, now);
    case OpSweep(order, platform) => SweepTimely(s, order, platform, now);
    case OpEnqueue(run) => SameOccurrences(s, Enqueue(s, run), now);
    case OpObserve(run, e) =>
      if run in s.runs && Open(s.runs[run]) {
        var seen := if e.id == Inbound(s.runs[run].lane.platform, Scheduled(run)) then SetStatus(s, run, Started)
          else s;
        SameOccurrences(s, seen, now);
        FinishTimely(calendar, seen, run, e, now);
      }
  }

  /** The clock never runs backwards, up to `now`. */
  predicate ClockedUntil(calls: seq<Call>, now: Time) {
    calls == [] ||
    (calls[|calls| - 1].now <= now && ClockedUntil(calls[..|calls| - 1], calls[|calls| - 1].now))
  }

  lemma LaterClock(s: Tables, clock: Time, now: Time)
    requires Timely(s, clock) && clock <= now
    ensures Timely(s, now)
  {
  }

  lemma {:induction false} HistoryTimely(calendar: Calendar, calls: seq<Call>, now: Time)
    requires ClockedUntil(calls, now)
    ensures Timely(History(calendar, calls), now)
  {
    if calls != [] {
      hide Timely, Apply;
      var last := calls[|calls| - 1];
      HistoryTimely(calendar, calls[..|calls| - 1], last.now);
      ApplyTimely(calendar, History(calendar, calls[..|calls| - 1]), last);
      LaterClock(History(calendar, calls), last.now, now);
    }
  }

  /** At every point of a sweep, reserving a due interval or cron task creates a run that never existed. */
  lemma RecurringReservationsAreFresh(calendar: Calendar, calls: seq<Call>, order: seq<TaskId>, platform: nat,
                                      now: Time, id: TaskId)
    requires ClockedUntil(calls, now)
    requires var s := Sweep(History(calendar, calls), order, platform, now);
      Due(s, id, platform, now) && s.tasks[id].kind != Once
    ensures var s := Sweep(History(calendar, calls), order, platform, now);
      && NextRunId(s, id) !in s.runs
      && (var after := Reserve(s, id);
          NextRunId(s, id) in after.runs && after.runs[NextRunId(s, id)].status == ReadyRun &&
            after.tasks[id].next.None?)
  {
    HistoryTimely(calendar, calls, now);
    SweepTimely(History(calendar, calls), order, platform, now);
    hide History, Sweep, ClockedUntil;
  }
}
