/**
 The scheduler as the program writes it: an object whose tables its methods update in place. Every
 method is proved to be the transaction of TaskSchedule it stands for, and to keep the open-run rules.
 */
module TaskSchedulers {
  import opened Identities
  import opened AgentEvents
  import opened TaskSchedule
  import opened ScheduleInvariants
  import L = ScheduleLaws

  class TaskScheduler {
    const calendar: Calendar
    var lanes: map<ConversationId, Lane>
    var tasks: map<TaskId, Task>
    var runs: map<RunId, Run>
    var commands: map<CommandKey, Result>

    function State(): Tables
      reads this
    {
      Tables(lanes, tasks, runs, commands)
    }

    predicate Valid()
      reads this
    {
      Sound(State()) && TasksAreRecorded(State())
    }

    constructor (calendar: Calendar)
      ensures Valid() && State() == NO_TABLES && this.calendar == calendar
    {
      this.calendar := calendar;
      lanes, tasks, runs, commands := map[], map[], map[], map[];
    }

    method Register(conversation: ConversationId, lane: Lane)
      requires Valid() && (conversation.ChatConversation? || conversation in lanes)
      modifies this`lanes
      ensures Valid() && State() == TaskSchedule.Register(old(State()), conversation, lane)
      ensures lanes == old(lanes)[conversation := lane]
    {
      hide Sound, TasksAreRecorded, Moves;
      ApplyKeeps(calendar, State(), Call(OpRegister(conversation, lane), 0));
      lanes := lanes[conversation := lane];
    }

    // ---- Commands -----------------------------------------------------------------------------------

    /** SELECT 1 ... WHERE task_id=? AND status IN (open). */
    method HasOpenRun(task: TaskId) returns (open: bool)
      ensures open == TaskBusy(State(), task)
    {
      var left := runs.Keys;
      while left != {}
        invariant left <= runs.Keys
        invariant forall r :: r in runs && r !in left ==> !OpenRunOf(runs, task, r)
        decreases |left|
      {
        var r :| r in left;
        if r.task == task && (runs[r].status == ReadyRun || runs[r].status == RunStatus.Enqueued ||
          runs[r].status == Started) {
          assert OpenRunOf(runs, task, r);
          return true;
        }
        left := left - {r};
      }
      return false;
    }

    /** The first result of a command is recorded and returned again when the command is repeated. */
    method Execute(source: ConversationId, command: nat, action: Action, now: Time) returns (result: Result)
      requires Valid()
      modifies this`tasks, this`runs, this`commands
      ensures Valid()
      ensures (result, State()) == TaskSchedule.Execute(calendar, old(State()), source, command, action, now)
    {
      hide Sound, TasksAreRecorded, Moves, TaskSchedule.Perform;
      ApplyKeeps(calendar, State(), Call(OpExecute(source, command, action), now));
      var key := CommandKey(source, command);
      if key in commands {
        return commands[key];
      }
      result := Perform(source, TaskId(source, command), action, now);
      commands := commands[key := result];
    }

    method Perform(source: ConversationId, id: TaskId, action: Action, now: Time) returns (result: Result)
      modifies this`tasks, this`runs
      ensures (result, State()) == TaskSchedule.Perform(calendar, old(State()), source, id, action, now)
    {
      hide TaskBusy, Trim, NextRun, IsTarget, TaskSchedule.Withdraw;
      if source !in lanes {
        return Refused(NotRegistered);
      }
      var own := lanes[source].scope;
      if action.ListTasks? {
        return Accepted(Listed(VisibleTasks(State(), own)));
      }
      if action.ScheduleTask? {
        result := Schedule(source, id, action, now);
        return;
      }
      if action.task !in tasks || tasks[action.task].status == Cancelled || !Visible(own, tasks[action.task].scope) {
        return Refused(NoSuchTask);
      }
      match action
      case PauseTask(t) =>
        tasks := tasks[t := tasks[t].(status := Paused)];
        return Accepted(TaskPaused);
      case CancelTask(t) =>
        tasks := tasks[t := tasks[t].(status := Cancelled, next := None)];
        Withdraw(t);
        return Accepted(TaskCancelled);
      case ResumeTask(t) =>
        result := Resume(t, now);
      case UpdateTask(_, _, _, _) =>
        result := Update(action, now);
      case OtherAction(_) =>
        return Refused(UnknownCommand);
    }

    method Schedule(source: ConversationId, id: TaskId, action: Action, now: Time) returns (result: Result)
      requires source in lanes && action.ScheduleTask?
      modifies this`tasks
      ensures (result, State()) == TaskSchedule.Schedule(calendar, old(State()), source, id, action, now)
    {
      hide Trim, NextRun;
      var own := lanes[source].scope;
      var scope := if action.scope.Some? then action.scope.value else own;
      if !Visible(own, scope) {
        return Refused(OtherScope);
      }
      var target := source;
      if scope != own {
        if action.answer.None? || !IsTarget(State(), action.answer.value, scope) {
          return Refused(NoTarget);
        }
        target := action.answer.value;
      }
      if Trim(action.prompt) == "" {
        return Refused(NoPrompt);
      }
      var next := NextRun(calendar, action.kind, action.value, now);
      if next.None? {
        return Refused(BadSchedule);
      }
      tasks := tasks[id := Task(target, lanes[target].scope, action.prompt, action.kind, action.value, action.grouped,
                                next, Active, None)];
      return Accepted(ScheduledAs(id, next.value));
    }

    /** UPDATE scheduler_runs SET status='cancelled' WHERE task_id=? AND status='ready'. */
    method Withdraw(task: TaskId)
      modifies this`runs
      ensures runs == TaskSchedule.Withdraw(old(runs), task)
    {
      var left := runs.Keys;
      ghost var was := runs;
      while left != {}
        invariant left <= runs.Keys == was.Keys
        invariant forall r :: r in left ==> runs[r] == was[r]
        invariant forall r :: r in was && r !in left ==> runs[r] == if r.task == task then WithdrawnRun(was[r])
          else was[r]
        decreases |left|
      {
        var r :| r in left;
        if r.task == task && runs[r].status == ReadyRun {
          runs := runs[r := runs[r].(status := CancelledRun)];
        }
        left := left - {r};
      }
      assert runs == TaskSchedule.Withdraw(was, task);
    }

    method Resume(id: TaskId, now: Time) returns (result: Result)
      requires id in tasks
      modifies this`tasks
      ensures (result, State()) == TaskSchedule.Resume(calendar, old(State()), id, now)
    {
      hide TaskBusy, NextRun;
      var t := tasks[id];
      var open := HasOpenRun(id);
      var next := None;
      if !open {
        next := NextRun(calendar, t.kind, t.value, now);
        if next.None? {
          return Refused(BadSchedule);
        }
      }
      tasks := tasks[id := t.(status := Active, next := next)];
      return Accepted(TaskResumed);
    }

    method Update(action: Action, now: Time) returns (result: Result)
      requires action.UpdateTask? && action.task in tasks
      modifies this`tasks
      ensures (result, State()) == TaskSchedule.Update(calendar, old(State()), action, now)
    {
      hide TaskBusy, NextRun, Trim;
      var t := tasks[action.task];
      var prompt := if action.newPrompt.Some? then action.newPrompt.value else t.prompt;
      if Trim(prompt) == "" {
        return Refused(NoPrompt);
      }
      var kind := if action.newKind.Some? then action.newKind.value else t.kind;
      var value := if action.newValue.Some? then action.newValue.value else t.value;
      var next := NextRun(calendar, kind, value, now);
      if next.None? {
        return Refused(BadSchedule);
      }
      var open := HasOpenRun(action.task);
      tasks := tasks[action.task := t.(prompt := prompt, kind := kind, value := value,
                                       next := if open then None else next)];
      return Accepted(TaskUpdated);
    }

    // ---- Occurrences ----------------------------------------------------------------------------------

    method ConversationHasOpenRun(conversation: ConversationId) returns (open: bool)
      ensures open == ConversationBusy(State(), conversation)
    {
      var left := runs.Keys;
      while left != {}
        invariant left <= runs.Keys
        invariant forall r :: r in runs && r !in left ==> !OpenRunIn(runs, conversation, r)
        decreases |left|
      {
        var r :| r in left;
        if runs[r].conversation == conversation && Open(runs[r]) {
          assert OpenRunIn(runs, conversation, r);
          return true;
        }
        left := left - {r};
      }
      return false;
    }

    method Reserve(id: TaskId)
      requires id in tasks && tasks[id].next.Some? && tasks[id].conversation in lanes
      modifies this`lanes, this`tasks, this`runs
      ensures State() == TaskSchedule.Reserve(old(State()), id)
    {
      var t := tasks[id];
      var run := RunId(id, t.next.value);
      var origin := lanes[t.conversation];
      var conversation, lane := t.conversation, origin;
      if !t.grouped {
        conversation, lane := RunConversation(run), origin.(key := RunLane(origin.key, run));
      }
      lanes := lanes[conversation := lane];
      if run !in runs {
        runs := runs[run := Run(conversation, ReadyRun, t.prompt, lane)];
      }
      tasks := tasks[id := t.(next := None)];
    }

    /** The tasks the sweep's query selects, in no particular order. */
    predicate Selects(s: Tables, order: seq<TaskId>, platform: nat, now: Time) {
      && (forall id :: id in s.tasks ==> (id in order <==> Due(s, id, platform, now)))
      && (forall id :: id in order ==> id in s.tasks)
      && (forall i, j :: 0 <= i < j < |order| ==> order[i] != order[j])
    }

    /**
     Reserves one occurrence per due task in one transaction, then lists every ready run of an active
     task: also those an earlier tick reserved and did not get to record as enqueued.
     */
    method DueRuns(platform: nat, now: Time) returns (ready: set<RunId>, ghost order: seq<TaskId>)
      requires Valid()
      modifies this`lanes, this`tasks, this`runs
      ensures Valid() && Selects(old(State()), order, platform, now)
      ensures State() == Sweep(old(State()), order, platform, now)
      ensures ready == ReadyRuns(State(), platform)
      ensures forall r :: r in ready <==>
        && r in runs && runs[r].status == ReadyRun && r.task in tasks && tasks[r.task].status == Active
        && runs[r].conversation in lanes && lanes[runs[r].conversation].platform == platform
      ensures forall id :: L.TimeHasCome(old(State()), id, platform, now) ==> L.Swept(old(State()), State(), id)
      ensures forall id :: id in old(tasks) && !L.TimeHasCome(old(State()), id, platform, now) ==>
        id in tasks && tasks[id] == old(tasks)[id]
      ensures forall r :: r in old(runs) ==> r in runs && runs[r] == old(runs)[r]
    {
      hide Sound, TasksAreRecorded, Moves, Due, ConversationBusy, L.TimeHasCome, Consider, SweptSoFar, Sweep;
      ghost var before := State();
      var left := set id | id in tasks && Due(State(), id, platform, now);
      ghost var selected := left;
      order := [];
      SweepStarts(before, platform, now);
      while left != {}
        invariant Valid() && State() == Sweep(before, order, platform, now)
        invariant left <= selected && (forall id :: id in order <==> id in selected && id !in left)
        invariant forall id :: id in left ==> Due(State(), id, platform, now)
        invariant forall i, j :: 0 <= i < j < |order| ==> order[i] != order[j]
        invariant SweptSoFar(before, State(), order)
        decreases |left|
      {
        var id :| id in left;
        SweptOneMore(before, State(), order, id, platform, now);
        ConsiderCases(State(), id, platform, now);
        DueIsReservable(State(), id, platform, now);
        ApplyKeeps(calendar, State(), Call(OpSweep([id], platform), now));
        OneStep(State(), id, platform, now);
        OthersStayDue(State(), id, left, platform, now);
        var busy := false;
        if tasks[id].grouped {
          busy := ConversationHasOpenRun(tasks[id].conversation);
        }
        if !busy {
          Reserve(id);
        }
        left := left - {id};
        SweepOneMore(before, order, id, platform, now);
        order := order + [id];
      }
      ready := set r | r in runs && IsReady(State(), r, platform);
      SweptAll(before, State(), order, platform, now);
    }

    /** The tasks taken so far are swept; every other task, and every run there was, is as it was. */
    predicate SweptSoFar(s: Tables, mid: Tables, order: seq<TaskId>) {
      && mid.tasks.Keys == s.tasks.Keys
      && (forall id :: id in order ==> L.Swept(s, mid, id))
      && (forall id :: id in s.tasks && id !in order ==> mid.tasks[id] == s.tasks[id])
      && (forall r :: r in s.runs ==> r in mid.runs && mid.runs[r] == s.runs[r])
    }

    lemma SweptOneMore(s: Tables, mid: Tables, order: seq<TaskId>, id: TaskId, platform: nat, now: Time)
      requires id !in order && Due(mid, id, platform, now) && SweptSoFar(s, mid, order)
      ensures SweptSoFar(s, Consider(mid, id, platform, now), order + [id])
    {
      DueIsReservable(mid, id, platform, now);
      hide L.Swept, Consider, Due;
      L.ConsiderKeepsOthers(mid, id, platform, now);
      L.SweptNow(s, mid, id, platform, now);
      forall other | other in order ensures L.Swept(s, Consider(mid, id, platform, now), other) {
        L.SweptStays(s, mid, other, id, platform, now);
      }
    }

    lemma SweepStarts(s: Tables, platform: nat, now: Time)
      ensures Sweep(s, [], platform, now) == s && SweptSoFar(s, s, [])
    {
    }

    lemma SweepOneMore(s: Tables, order: seq<TaskId>, id: TaskId, platform: nat, now: Time)
      ensures Sweep(s, order + [id], platform, now) == Consider(Sweep(s, order, platform, now), id, platform, now)
    {
      assert (order + [id])[..|order|] == order;
      hide Consider;
    }

    lemma ConsiderCases(s: Tables, id: TaskId, platform: nat, now: Time)
      requires Due(s, id, platform, now)
      ensures id in s.tasks && s.tasks[id].next.Some? && s.tasks[id].conversation in s.lanes
      ensures Consider(s, id, platform, now) ==
        if s.tasks[id].grouped && ConversationBusy(s, s.tasks[id].conversation) then s else TaskSchedule.Reserve(s, id)
    {
      hide ConversationBusy, TaskSchedule.Reserve;
    }

    lemma SweptAll(s: Tables, after: Tables, order: seq<TaskId>, platform: nat, now: Time)
      requires SweptSoFar(s, after, order) && Selects(s, order, platform, now)
      ensures forall id :: L.TimeHasCome(s, id, platform, now) ==> L.Swept(s, after, id)
      ensures forall id :: id in s.tasks && !L.TimeHasCome(s, id, platform, now) ==>
        id in after.tasks && after.tasks[id] == s.tasks[id]
      ensures forall r :: r in s.runs ==> r in after.runs && after.runs[r] == s.runs[r]
    {
      hide L.Swept;
      forall id ensures L.TimeHasCome(s, id, platform, now) <==> Due(s, id, platform, now) {
        L.DueMeans(s, id, platform, now);
      }
      assert forall id :: L.TimeHasCome(s, id, platform, now) ==> id in s.tasks;
      hide Due, L.TimeHasCome;
    }

    lemma DueIsReservable(s: Tables, id: TaskId, platform: nat, now: Time)
      requires Due(s, id, platform, now)
      ensures id in s.tasks && s.tasks[id].next.Some? && s.tasks[id].conversation in s.lanes
    {
    }

    lemma OneStep(s: Tables, id: TaskId, platform: nat, now: Time)
      ensures Sweep(s, [id], platform, now) == Consider(s, id, platform, now)
    {
      assert Sweep(s, [], platform, now) == s;
      assert [id][..0] == [];
      hide Consider;
    }

    lemma OthersStayDue(s: Tables, id: TaskId, left: set<TaskId>, platform: nat, now: Time)
      requires Due(s, id, platform, now) && forall other :: other in left ==> Due(s, other, platform, now)
      ensures forall other :: other in left && other != id ==> Due(Consider(s, id, platform, now), other, platform, now)
    {
      hide ConversationBusy;
    }

    /** Ready runs of active tasks, in conversations of the platform. */
    predicate IsReady(s: Tables, r: RunId, platform: nat) {
      && r in s.runs
      && s.runs[r].status == ReadyRun
      && s.runs[r].conversation in s.lanes
      && s.lanes[s.runs[r].conversation].platform == platform
      && r.task in s.tasks
      && s.tasks[r.task].status == Active
    }

    function ReadyRuns(s: Tables, platform: nat): set<RunId> {
      set r | r in s.runs && IsReady(s, r, platform)
    }

    method Enqueued(run: RunId)
      requires Valid()
      modifies this`runs
      ensures Valid() && State() == Enqueue(old(State()), run)
    {
      hide Sound, TasksAreRecorded, Moves;
      ApplyKeeps(calendar, State(), Call(OpEnqueue(run), 0));
      if run in runs && runs[run].status == ReadyRun {
        runs := runs[run := runs[run].(status := RunStatus.Enqueued)];
      }
    }

    // ---- Observations -----------------------------------------------------------------------------------

    /** At most one run of a conversation is open, so the loop over its open runs runs at most once. */
    method Observe(conversation: ConversationId, e: Sighting, now: Time)
      requires Valid()
      modifies this`tasks, this`runs
      ensures Valid()
      ensures !ConversationBusy(old(State()), conversation) ==> State() == old(State())
      ensures forall r :: r in old(runs) && old(runs)[r].conversation == conversation && L.NotEnded(old(runs)[r]) ==>
        L.ObservedAs(calendar, old(State()), State(), r, e, now)
      ensures forall r :: r in old(runs) && OpenRunIn(old(runs), conversation, r) ==>
        State() == TaskSchedule.Observe(calendar, old(State()), r, e, now)
    {
      hide Sound, TasksAreRecorded, Moves, TaskSchedule.Observe, L.ObservedAs;
      ghost var before := State();
      var open := set r | r in runs && runs[r].conversation == conversation && Open(runs[r]);
      ghost var all := open;
      SingleOpenRun(before, conversation, open);
      while open != {}
        invariant Valid() && open <= all
        invariant open == all ==> State() == before
        invariant open == {} ==> forall r :: r in all ==> State() == TaskSchedule.Observe(calendar, before, r, e, now)
        decreases |open|
      {
        var r :| r in open;
        ApplyKeeps(calendar, State(), Call(OpObserve(r, e), now));
        ObserveRun(r, e, now);
        open := open - {r};
      }
      forall r | r in before.runs && OpenRunIn(before.runs, conversation, r)
        ensures State() == TaskSchedule.Observe(calendar, before, r, e, now)
        ensures L.ObservedAs(calendar, before, State(), r, e, now)
      {
        assert r in all;
        L.ObserveMeans(calendar, before, r, e, now);
      }
      if all != {} {
        var r :| r in all;
        assert OpenRunIn(before.runs, conversation, r);
      }
    }

    lemma SingleOpenRun(s: Tables, conversation: ConversationId, open: set<RunId>)
      requires Sound(s)
      requires forall r :: r in open ==> r in s.runs && s.runs[r].conversation == conversation && Open(s.runs[r])
      ensures forall a, b :: a in open && b in open ==> a == b
    {
    }

    method ObserveRun(r: RunId, e: Sighting, now: Time)
      requires r in runs && Open(runs[r])
      modifies this`tasks, this`runs
      ensures State() == TaskSchedule.Observe(calendar, old(State()), r, e, now)
    {
      hide NextRun;
      var run := runs[r];
      if e.id == Inbound(run.lane.platform, Scheduled(r)) {
        runs := runs[r := run.(status := Started)];
      }
      if run.status != Started || !(e.terminal || e.failed) || r.task !in tasks {
        return;
      }
      var task := tasks[r.task];
      var status := if e.reconcile then Paused else task.status;
      var recurring := task.kind != Once;
      var next := None;
      if recurring && status == Active {
        next := NextRun(calendar, task.kind, task.value, now);
        if next.None? {
          return;
        }
      }
      runs := runs[r := runs[r].(status := if e.failed then FailedRun else DoneRun)];
      tasks := tasks[r.task := task.(next := next, lastRun := Some(now),
                                     status := if !recurring && status == Active then Completed else status)];
    }
  }
}
