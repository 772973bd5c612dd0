/**
 From a scheduled occurrence to its intake row: any number of relay ticks, each of which may crash
 between accepting the occurrence and recording that, beside every other scheduler and store call.
 */
module ScheduledIntake {
  import opened Identities
  import opened AgentEvents
  import opened TaskSchedule
  import S = ScheduleInvariants
  import W = WorkTable
  import V = WorkInvariants

  /** Where a tick stands between accepting a run and recording it as enqueued. */
  datatype Tick = Resting | Submitted(run: RunId)

  /** `submitted` is history, read by no step. */
  datatype World = World(tables: Tables, db: W.Db, ticks: seq<Tick>, submitted: set<RunId>)

  datatype Step =
    | SchedulerCall(call: Call)
    | StoreCall(op: V.Op, now: Time)
    | Submit(k: nat, run: RunId, now: Time)
    | Record(k: nat)
    | TickCrash(k: nat)

  /** One relay store, identified by `owner`, and the calendar its scheduler uses. */
  datatype Setup = Setup(calendar: Calendar, policy: W.Policy, owner: nat)

  function KeyOf(run: RunId, r: Run): SourceKey {
    MessageKey(r.lane.platform, r.lane.account, Scheduled(run))
  }

  predicate NamesRun(source: SourceKey) {
    source.MessageKey? && source.source.Scheduled?
  }

  /**
   A tick may hold a due list that is out of date, so any run of this store may be submitted. Only
   ticks record runs as enqueued, and only they use a run's source id.
   */
  predicate Enabled(setup: Setup, w: World, step: Step) {
    match step
    case SchedulerCall(call) =>
      && !call.op.OpEnqueue?
      && (call.op.OpRegister? ==> call.op.conversation.ChatConversation? || call.op.conversation in w.tables.lanes)
    case StoreCall(op, _) => op.OpAccept? || op.OpInsertDelivery? ==> !NamesRun(op.source)
    case Submit(k, run, _) =>
      k < |w.ticks| && w.ticks[k].Resting? && run in w.tables.runs && w.tables.runs[run].lane.owner == setup.owner
    case Record(k) => k < |w.ticks| && w.ticks[k].Submitted?
    case TickCrash(k) => k < |w.ticks|
  }

  /** registerLane, then acceptInbound. */
  function Accepted(db: W.Db, run: RunId, r: Run, now: Time): W.Db {
    var bound := W.ResolveLane(db, r.lane.key, W.Lane(r.lane.platform, r.lane.account));
    W.AcceptIntake(bound, r.lane.key, KeyOf(run, r), Inbound(r.lane.platform, Scheduled(run)),
                   W.ThreadMessage(r.prompt), false, now)
  }

  function Taken(setup: Setup, w: World, step: Step): World
    requires Enabled(setup, w, step)
  {
    match step
    case SchedulerCall(call) => w.(tables := Apply(setup.calendar, w.tables, call))
    case StoreCall(op, now) => w.(db := V.Apply(setup.policy, w.db, V.Call(op, now)))
    case Submit(k, run, now) =>
      var r := w.tables.runs[run];
      World(Register(w.tables, r.conversation, r.lane), Accepted(w.db, run, r, now), w.ticks[k := Submitted(run)],
            w.submitted + {run})
    case Record(k) => w.(tables := Enqueue(w.tables, w.ticks[k].run), ticks := w.ticks[k := Resting])
    case TickCrash(k) => w.(ticks := w.ticks[k := Resting])
  }

  /** A step that is not enabled does not happen. */
  function Next(setup: Setup, w: World, step: Step): World {
    if Enabled(setup, w, step) then Taken(setup, w, step) else w
  }

  function Reached(setup: Setup, ticks: nat, steps: seq<Step>): World {
    if steps == [] then World(NO_TABLES, W.EMPTY, seq(ticks, _ => Resting), {})
    else Next(setup, Reached(setup, ticks, steps[..|steps| - 1]), steps[|steps| - 1])
  }

  // ---- What store calls may append ----------------------------------------------------------------

  /** The rows a call appends carry no source but these. */
  predicate AppendsOnly(a: W.Db, b: W.Db, source: SourceKey) {
    forall i :: |a.work| <= i < |b.work| ==> b.work[i].source.ReceiptKey? || b.work[i].source == source
  }

  lemma CompleteAppends(db: W.Db, id: nat, result: W.CommandResult, agentControlled: bool, now: Time, source: SourceKey)
    requires id < |db.work|
    ensures AppendsOnly(db, W.CompleteCommand(db, id, result, agentControlled, now), source)
  {
    hide W.FindSource, W.MaxSequence;
  }

  lemma {:induction false} RecoveryAppends(db: W.Db, n: nat, now: Time, source: SourceKey)
    requires n <= |db.work|
    ensures AppendsOnly(db, W.RejectStranded(db, n, now), source)
    ensures AppendsOnly(db, W.ExpireCommands(db, n, now), source)
  {
    hide W.CompleteCommand, AppendsOnly, KeepsSources;
    NothingAppended(db, source);
    if n > 0 {
      RecoveryAppends(db, n - 1, now, source);
      var rejected, expired := W.RejectStranded(db, n - 1, now), W.ExpireCommands(db, n - 1, now);
      CompleteAppends(rejected, n - 1, W.Rejected, false, now, source);
      CompleteAppends(expired, n - 1, W.Unknown, false, now, source);
      CompleteKeepsSources(rejected, n - 1, W.Rejected, false, now);
      CompleteKeepsSources(expired, n - 1, W.Unknown, false, now);
      AppendsChain(db, rejected, W.RejectStranded(db, n, now), source);
      AppendsChain(db, expired, W.ExpireCommands(db, n, now), source);
    }
  }

  lemma NothingAppended(db: W.Db, source: SourceKey)
    ensures AppendsOnly(db, db, source)
  {
  }

  predicate KeepsSources(a: W.Db, b: W.Db) {
    |a.work| <= |b.work| && forall i :: 0 <= i < |a.work| ==> b.work[i].source == a.work[i].source
  }

  lemma CompleteKeepsSources(db: W.Db, id: nat, result: W.CommandResult, agentControlled: bool, now: Time)
    requires id < |db.work|
    ensures KeepsSources(db, W.CompleteCommand(db, id, result, agentControlled, now))
  {
    hide W.FindSource, W.MaxSequence;
  }

  lemma AppendsChain(a: W.Db, b: W.Db, c: W.Db, source: SourceKey)
    requires AppendsOnly(a, b, source)
    requires c == b || (AppendsOnly(b, c, source) && KeepsSources(b, c))
    ensures AppendsOnly(a, c, source)
  {
  }

  lemma ReconcileAppends(db: W.Db, now: Time, source: SourceKey)
    requires V.TableInv(db)
    ensures AppendsOnly(db, W.Reconcile(db, now), source)
  {
    hide V.TableInv, W.RejectStranded, W.ExpireCommands;
    V.RejectStrandedKeeps(db, |db.work|, now);
    var rejected := W.RejectStranded(db, |db.work|, now);
    V.ExpireCommandsKeeps(rejected, |rejected.work|, now);
    RecoveryAppends(db, |db.work|, now, source);
    RecoveryAppends(rejected, |rejected.work|, now, source);
  }

  lemma StoreAppends(policy: W.Policy, db: W.Db, call: V.Call, source: SourceKey)
    requires V.TableInv(db)
    requires call.op.OpAccept? || call.op.OpInsertDelivery? ==> source == call.op.source
    ensures AppendsOnly(db, V.Apply(policy, db, call), source)
  {
    hide V.TableInv, W.FindSource, W.MaxSequence, W.CompleteCommand, W.Reconcile, W.Backoff, W.Claimable;
    match call.op
    case OpReconcile => ReconcileAppends(db, call.now, source);
    case OpSettle(t, outcome) =>
      if W.Live(db, t) { CompleteAppends(db, t.id, W.Rejected, false, call.now, source); }
    case OpFinishCommand(t, result, agentControlled) =>
      if t.id < |db.work| { CompleteAppends(db, t.id, result, agentControlled, call.now, source); }
    case OpClaim(kind, id, _) => InTable(db.work, kind, call.now, id);
    case _ =>
  }

  lemma InTable(work: seq<W.Row>, kind: Option<W.WorkKind>, now: Time, id: nat)
    ensures W.Claimable(work, kind, now, id) ==> id < |work|
  {
  }

  // ---- The invariant --------------------------------------------------------------------------------

  predicate IsRowOf(r: W.Row, run: RunId) {
    NamesRun(r.source) && r.source.source.run == run
  }

  /** The intake rows of one occurrence, whatever bridge account they carry. */
  function RowsOf(work: seq<W.Row>, run: RunId): set<nat> {
    set i | 0 <= i < |work| && IsRowOf(work[i], run)
  }

  /** A row that names a run is the intake row of a submitted run, under that run's own key. */
  predicate GoodRow(tables: Tables, submitted: set<RunId>, r: W.Row) {
    NamesRun(r.source) ==>
      && r.source.source.run in submitted
      && r.source.source.run in tables.runs
      && r.kind == W.Intake
      && r.source == KeyOf(r.source.source.run, tables.runs[r.source.source.run])
  }

  predicate GoodRows(w: World) {
    forall i :: 0 <= i < |w.db.work| ==> GoodRow(w.tables, w.submitted, w.db.work[i])
  }

  predicate HasRow(w: World, run: RunId) {
    run in w.tables.runs && W.FindSource(w.db.work, W.Intake, KeyOf(run, w.tables.runs[run])).Some?
  }

  predicate GoodSubmissions(w: World) {
    && (forall run :: run in w.submitted ==> HasRow(w, run))
    && (forall run :: run in w.tables.runs && w.tables.runs[run].status == Enqueued ==> run in w.submitted)
    && (forall k :: 0 <= k < |w.ticks| && w.ticks[k].Submitted? ==> w.ticks[k].run in w.submitted)
  }

  predicate IntakeInv(w: World) {
    && V.TableInv(w.db) && S.Sound(w.tables) && S.TasksAreRecorded(w.tables)
    && GoodRows(w) && GoodSubmissions(w)
  }

  // ---- Its preservation -------------------------------------------------------------------------------

  lemma RowsStay(a: World, b: World, source: SourceKey)
    requires GoodRows(a) && V.Evolves(a.db, b.db) && S.RunsAdvance(a.tables, b.tables) && a.submitted <= b.submitted
    requires AppendsOnly(a.db, b.db, source)
    requires forall i :: |a.db.work| <= i < |b.db.work| && b.db.work[i].source == source ==>
      GoodRow(b.tables, b.submitted, b.db.work[i])
    ensures GoodRows(b)
  {
    forall i | 0 <= i < |b.db.work| ensures GoodRow(b.tables, b.submitted, b.db.work[i]) {
      if i < |a.db.work| {
        assert GoodRow(a.tables, a.submitted, a.db.work[i]) && V.Successor(a.db.work[i], b.db.work[i]);
      }
    }
  }

  lemma RowPersists(a: World, b: World, run: RunId)
    requires HasRow(a, run) && V.Evolves(a.db, b.db) && S.RunsAdvance(a.tables, b.tables)
    ensures HasRow(b, run)
  {
    var i := W.FindSource(a.db.work, W.Intake, KeyOf(run, a.tables.runs[run])).value;
    assert V.Successor(a.db.work[i], b.db.work[i]);
    V.FindSourceComplete(b.db.work, W.Intake, KeyOf(run, b.tables.runs[run]), i);
  }

  lemma SubmissionsStay(a: World, b: World)
    requires GoodSubmissions(a) && V.Evolves(a.db, b.db) && S.RunsAdvance(a.tables, b.tables)
    requires b.submitted == a.submitted
    requires forall run :: run in b.tables.runs && b.tables.runs[run].status == Enqueued ==> run in a.submitted
    requires forall k :: 0 <= k < |b.ticks| && b.ticks[k].Submitted? ==> b.ticks[k].run in a.submitted
    ensures GoodSubmissions(b)
  {
    hide V.Evolves, S.RunsAdvance, HasRow;
    forall run | run in b.submitted ensures HasRow(b, run) {
      RowPersists(a, b, run);
    }
  }

  /** Only Enqueue makes a run enqueued. */
  lemma NotEnqueuedByOthers(calendar: Calendar, s: Tables, call: Call, run: RunId)
    requires !call.op.OpEnqueue?
    requires run in Apply(calendar, s, call).runs && Apply(calendar, s, call).runs[run].status == Enqueued
    ensures run in s.runs && s.runs[run].status == Enqueued
  {
    hide Execute, Sweep, Observe;
    match call.op
    case OpRegister(_, _) =>
    case OpExecute(conversation, command, action) => CommandEnqueuesNone(calendar, s, conversation, command, action,
      call.now, run);
    case OpSweep(order, platform) => SweepEnqueuesNone(s, order, platform, call.now, run);
    case OpObserve(seen, e) => ObservationEnqueuesNone(calendar, s, seen, e, call.now, run);
  }

  lemma CommandEnqueuesNone(calendar: Calendar, s: Tables, source: ConversationId, command: nat, action: Action,
                            now: Time, run: RunId)
    requires var after := Execute(calendar, s, source, command, action, now).1;
      run in after.runs && after.runs[run].status == Enqueued
    ensures run in s.runs && s.runs[run].status == Enqueued
  {
    hide NextRun, Trim, TaskBusy, Visible, IsTarget, VisibleTasks;
  }

  lemma ObservationEnqueuesNone(calendar: Calendar, s: Tables, seen: RunId, e: Sighting, now: Time, run: RunId)
    requires var after := Observe(calendar, s, seen, e, now); run in after.runs && after.runs[run].status == Enqueued
    ensures run in s.runs && s.runs[run].status == Enqueued
  {
    hide AfterRun;
  }

  lemma {:induction false} SweepEnqueuesNone(s: Tables, order: seq<TaskId>, platform: nat, now: Time, run: RunId)
    requires run in Sweep(s, order, platform, now).runs && Sweep(s, order, platform, now).runs[run].status == Enqueued
    ensures run in s.runs && s.runs[run].status == Enqueued
  {
    if order != [] {
      hide ConversationBusy;
      SweepEnqueuesNone(s, order[..|order| - 1], platform, now, run);
    }
  }

  lemma SchedulerStepKeeps(setup: Setup, w: World, call: Call)
    requires IntakeInv(w) && Enabled(setup, w, SchedulerCall(call))
    ensures IntakeInv(Taken(setup, w, SchedulerCall(call)))
  {
    hide V.TableInv, S.Sound, S.TasksAreRecorded, GoodRows, GoodSubmissions, Apply;
    var after := Taken(setup, w, SchedulerCall(call));
    S.ApplyKeeps(setup.calendar, w.tables, call);
    V.EvolvesReflexive(w.db);
    RowsStay(w, after, ReceiptKey(0));
    forall run | run in after.tables.runs && after.tables.runs[run].status == Enqueued ensures run in w.submitted {
      NotEnqueuedByOthers(setup.calendar, w.tables, call, run);
      EnqueuedWasSubmitted(w, run);
    }
    TicksWereSubmitted(w);
    SubmissionsStay(w, after);
  }

  lemma EnqueuedWasSubmitted(w: World, run: RunId)
    requires GoodSubmissions(w) && run in w.tables.runs && w.tables.runs[run].status == Enqueued
    ensures run in w.submitted
  {
  }

  lemma TicksWereSubmitted(w: World)
    requires GoodSubmissions(w)
    ensures forall k :: 0 <= k < |w.ticks| && w.ticks[k].Submitted? ==> w.ticks[k].run in w.submitted
  {
  }

  lemma StoreStepKeeps(setup: Setup, w: World, op: V.Op, now: Time)
    requires IntakeInv(w) && Enabled(setup, w, StoreCall(op, now))
    ensures IntakeInv(Taken(setup, w, StoreCall(op, now)))
  {
    hide V.TableInv, V.Evolves, S.Sound, S.TasksAreRecorded, V.Apply, GoodRows;
    var after := Taken(setup, w, StoreCall(op, now));
    var call := V.Call(op, now);
    V.ApplyKeeps(setup.policy, w.db, call);
    S.MovesReflexive(w.tables);
    var source := if op.OpAccept? || op.OpInsertDelivery? then op.source else ReceiptKey(0);
    StoreAppends(setup.policy, w.db, call, source);
    hide AppendsOnly;
    RowsStay(w, after, source);
    SubmissionsStay(w, after);
  }

  lemma RecordStepKeeps(setup: Setup, w: World, k: nat)
    requires IntakeInv(w) && Enabled(setup, w, Record(k))
    ensures IntakeInv(Taken(setup, w, Record(k)))
  {
    hide V.TableInv, S.Sound, S.TasksAreRecorded, GoodRows, V.Evolves, HasRow, S.RunsAdvance;
    var after := Taken(setup, w, Record(k));
    S.ApplyKeeps(setup.calendar, w.tables, Call(OpEnqueue(w.ticks[k].run), 0));
    V.EvolvesReflexive(w.db);
    RowsStay(w, after, ReceiptKey(0));
    SubmissionsStay(w, after);
  }

  lemma CrashStepKeeps(setup: Setup, w: World, k: nat)
    requires IntakeInv(w) && Enabled(setup, w, TickCrash(k))
    ensures IntakeInv(Taken(setup, w, TickCrash(k)))
  {
    hide V.TableInv, S.Sound, S.TasksAreRecorded, HasRow, GoodRow;
    var after := Taken(setup, w, TickCrash(k));
    assert GoodRows(after);
    forall run | run in after.submitted ensures HasRow(after, run) {
      assert HasRow(w, run);
      SameRow(w, after, run);
    }
  }

  lemma SameRow(a: World, b: World, run: RunId)
    requires HasRow(a, run) && a.db == b.db && a.tables == b.tables
    ensures HasRow(b, run)
  {
  }

  lemma AcceptedKeeps(db: W.Db, run: RunId, r: TaskSchedule.Run, now: Time)
    requires V.TableInv(db)
    ensures var after := Accepted(db, run, r, now);
      && V.TableInv(after) && V.Evolves(db, after)
      && AppendsOnly(db, after, KeyOf(run, r))
      && (forall i :: |db.work| <= i < |after.work| ==> after.work[i].kind == W.Intake)
      && W.FindSource(after.work, W.Intake, KeyOf(run, r)).Some?
  {
    hide V.TableInv, V.Evolves, W.MaxSequence;
    var lane := W.Lane(r.lane.platform, r.lane.account);
    var bound := W.ResolveLane(db, r.lane.key, lane);
    V.ApplyKeeps(W.Policy(0, 0, 0, 0, _ => 0), db, V.Call(V.OpResolveLane(r.lane.key, lane), now));
    V.AcceptKeeps(bound, r.lane.key, KeyOf(run, r), Inbound(r.lane.platform, Scheduled(run)), W.ThreadMessage(r.prompt),
      false, now);
    V.EvolvesTransitive(db, bound, Accepted(db, run, r, now));
  }

  lemma SubmitStepKeeps(setup: Setup, w: World, k: nat, run: RunId, now: Time)
    requires IntakeInv(w) && Enabled(setup, w, Submit(k, run, now))
    ensures IntakeInv(Taken(setup, w, Submit(k, run, now)))
  {
    hide V.TableInv, V.Evolves, S.TasksAreRecorded, Accepted, W.FindSource, S.Sound, GoodRows, S.RunsAdvance,
      AppendsOnly;
    var r := w.tables.runs[run];
    var after := Taken(setup, w, Submit(k, run, now));
    RunIsRegistered(w.tables, run);
    SameRecords(w.tables, after.tables);
    S.RegisterKeeps(w.tables, r.conversation, r.lane);
    AcceptedKeeps(w.db, run, r, now);
    NewRowsAreGood(w, after, run);
    RowsStay(w, after, KeyOf(run, r));
    hide GoodRow;
    forall other | other in after.submitted ensures HasRow(after, other) {
      if other != run {
        RowPersists(w, after, other);
      }
    }
  }

  lemma RunIsRegistered(s: Tables, run: RunId)
    requires S.Sound(s) && run in s.runs
    ensures s.runs[run].conversation in s.lanes
  {
  }

  /** The row a submission appends is the run's own. */
  lemma NewRowsAreGood(w: World, after: World, run: RunId)
    requires run in w.tables.runs && after.tables.runs == w.tables.runs && run in after.submitted
    requires forall i :: |w.db.work| <= i < |after.db.work| ==> after.db.work[i].kind == W.Intake
    ensures forall i ::
      |w.db.work| <= i < |after.db.work| && after.db.work[i].source == KeyOf(run, w.tables.runs[run]) ==>
      GoodRow(after.tables, after.submitted, after.db.work[i])
  {
  }

  lemma SameRecords(a: Tables, b: Tables)
    requires S.TasksAreRecorded(a) && a.tasks == b.tasks && a.commands == b.commands
    ensures S.TasksAreRecorded(b)
  {
  }

  lemma NextKeeps(setup: Setup, w: World, step: Step)
    requires IntakeInv(w)
    ensures IntakeInv(Next(setup, w, step))
  {
    hide IntakeInv, Enabled, Taken;
    if Enabled(setup, w, step) {
      match step
      case SchedulerCall(call) => SchedulerStepKeeps(setup, w, call);
      case StoreCall(op, now) => StoreStepKeeps(setup, w, op, now);
      case Submit(k, run, now) => SubmitStepKeeps(setup, w, k, run, now);
      case Record(k) => RecordStepKeeps(setup, w, k);
      case TickCrash(k) => CrashStepKeeps(setup, w, k);
    }
  }

  lemma {:induction false} ReachedKeeps(setup: Setup, ticks: nat, steps: seq<Step>)
    ensures IntakeInv(Reached(setup, ticks, steps))
  {
    if steps != [] {
      hide IntakeInv, Next;
      ReachedKeeps(setup, ticks, steps[..|steps| - 1]);
      NextKeeps(setup, Reached(setup, ticks, steps[..|steps| - 1]), steps[|steps| - 1]);
    }
  }

  // ---- The theorem --------------------------------------------------------------------------------------

  /**
   However often crashes make an occurrence come back as due, and from however many ticks, it has one
   intake row once it was submitted and none before; an occurrence recorded as enqueued has its row.
   */
  lemma OneRowPerOccurrence(setup: Setup, ticks: nat, steps: seq<Step>, run: RunId)
    ensures var w := Reached(setup, ticks, steps);
      && |RowsOf(w.db.work, run)| == (if run in w.submitted then 1 else 0)
      && (run in w.tables.runs && w.tables.runs[run].status == Enqueued ==> run in w.submitted)
  {
    hide Reached, IntakeInv, RowsOf;
    ReachedKeeps(setup, ticks, steps);
    RowsCounted(Reached(setup, ticks, steps), run);
  }

  lemma RowsCounted(w: World, run: RunId)
    requires IntakeInv(w)
    ensures |RowsOf(w.db.work, run)| == (if run in w.submitted then 1 else 0)
    ensures run in w.tables.runs && w.tables.runs[run].status == Enqueued ==> run in w.submitted
  {
    SourcesAreUnique(w.db);
    hide V.TableInv, S.Sound, S.TasksAreRecorded, W.FindSource;
    if run in w.submitted {
      assert HasRow(w, run);
      var i := W.FindSource(w.db.work, W.Intake, KeyOf(run, w.tables.runs[run])).value;
      forall j | 0 <= j < |w.db.work| && IsRowOf(w.db.work[j], run) ensures j == i {
        assert GoodRow(w.tables, w.submitted, w.db.work[j]);
      }
      assert RowsOf(w.db.work, run) == {i};
    } else {
      forall j | 0 <= j < |w.db.work| ensures !IsRowOf(w.db.work[j], run) {
        assert GoodRow(w.tables, w.submitted, w.db.work[j]);
      }
      assert RowsOf(w.db.work, run) == {};
    }
  }

  lemma SourcesAreUnique(db: W.Db)
    requires V.TableInv(db)
    ensures V.UniqueSources(db.work)
  {
  }
}
