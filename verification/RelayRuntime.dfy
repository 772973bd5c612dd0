/**
 The scheduled part of one relay tick as the program writes it: every due run of this store is accepted
 as intake work and then recorded as enqueued.
 */
module RelayRuntimes {
  import opened Identities
  import S = TaskSchedule
  import P = ScheduleInvariants
  import W = WorkTable
  import V = WorkInvariants
  import I = ScheduledIntake
  import L = ScheduleLaws
  import StoreLaws
  import opened MessageWorkStores
  import opened TaskSchedulers

  class RelayRuntime {
    const scheduler: TaskScheduler
    const store: MessageWorkStore
    /** Identifies this relay's store among those that share the scheduler. */
    const owner: nat

    constructor (scheduler: TaskScheduler, store: MessageWorkStore, owner: nat)
      ensures this.scheduler == scheduler && this.store == store && this.owner == owner
    {
      this.scheduler, this.store, this.owner := scheduler, store, owner;
    }

    /** The run's intake row exists. */
    predicate HasRow(work: seq<W.Row>, run: RunId, r: S.Run) {
      W.FindSource(work, W.Intake, I.KeyOf(run, r)).Some?
    }

    lemma RowStays(a: W.Db, b: W.Db, run: RunId, r: S.Run)
      requires HasRow(a.work, run, r) && V.Evolves(a, b)
      ensures HasRow(b.work, run, r)
    {
      var i := W.FindSource(a.work, W.Intake, I.KeyOf(run, r)).value;
      assert V.Successor(a.work[i], b.work[i]);
      V.FindSourceComplete(b.work, W.Intake, I.KeyOf(run, r), i);
    }

    lemma RunIsKnown(s: S.Tables, run: RunId)
      requires P.Sound(s) && run in s.runs
      ensures s.runs[run].conversation in s.lanes
    {
    }

    /** The occurrence is queued in its lane with its prompt, unless it was before. */
    predicate Submitted(before: seq<W.Row>, after: seq<W.Row>, run: RunId, r: S.Run, now: Time) {
      var source := MessageKey(r.lane.platform, r.lane.account, Scheduled(run));
      if StoreLaws.Knows(before, W.Intake, source) then after == before
      else
        && |after| == |before| + 1 && after[..|before|] == before
        && StoreLaws.FreshRow(before, after[|before|], W.Intake, source, r.lane.key,
                              Inbound(r.lane.platform, Scheduled(run)), W.ThreadMessage(r.prompt), now)
    }

    /** registerLane, then acceptInbound. */
    method Submit(run: RunId, now: Time)
      requires scheduler.Valid() && store.Valid() && run in scheduler.runs
      modifies scheduler`lanes, store
      ensures scheduler.Valid() && store.Valid()
      ensures store.State() == I.Accepted(old(store.State()), run, scheduler.runs[run], now)
      ensures V.Evolves(old(store.State()), store.State()) && HasRow(store.work, run, scheduler.runs[run])
      ensures Submitted(old(store.work), store.work, run, scheduler.runs[run], now)
    {
      hide V.TableInv, V.Evolves, P.Sound, P.TasksAreRecorded, W.FindSource, I.AppendsOnly, StoreLaws.Knows,
        StoreLaws.FreshRow;
      var r := scheduler.runs[run];
      I.AcceptedKeeps(store.State(), run, r, now);
      RunIsKnown(scheduler.State(), run);
      var _ := store.ResolveLane(r.lane.key, W.Lane(r.lane.platform, r.lane.account));
      scheduler.Register(r.conversation, r.lane);
      StoreLaws.AcceptMeans(store.State(), r.lane.key, I.KeyOf(run, r), Inbound(r.lane.platform, Scheduled(run)),
                            W.ThreadMessage(r.prompt), false, now);
      var _ := store.AcceptIntake(r.lane.key, I.KeyOf(run, r), Inbound(r.lane.platform, Scheduled(run)),
                                  W.ThreadMessage(r.prompt), false, now);
    }

    /** One due run: accepted first, then recorded, so a crash between the two repeats the accept. */
    method SubmitRun(run: RunId, now: Time)
      requires scheduler.Valid() && store.Valid() && run in scheduler.runs && scheduler.runs[run].status == S.ReadyRun
      modifies scheduler, store
      ensures scheduler.Valid() && store.Valid() && V.Evolves(old(store.State()), store.State())
      ensures scheduler.runs == old(scheduler.runs)[run := old(scheduler.runs)[run].(status := S.Enqueued)]
      ensures HasRow(store.work, run, old(scheduler.runs)[run])
    {
      hide V.TableInv, V.Evolves, P.Sound, P.TasksAreRecorded, HasRow, I.Accepted;
      Submit(run, now);
      scheduler.Enqueued(run);
    }

    /** A ready run of an active task, in a conversation of the platform. */
    predicate IsListed(s: S.Tables, run: RunId, platform: nat) {
      && run in s.runs && s.runs[run].status == S.ReadyRun
      && run.task in s.tasks && s.tasks[run.task].status == S.Active
      && s.runs[run].conversation in s.lanes && s.lanes[s.runs[run].conversation].platform == platform
    }

    /** Of the runs dealt with so far, this relay's are enqueued and have their rows. */
    predicate Handled(done: set<RunId>, before: map<RunId, S.Run>, runs: map<RunId, S.Run>, work: seq<W.Row>) {
      forall run :: run in done && run in before && before[run].lane.owner == owner ==>
        run in runs && runs[run] == before[run].(status := S.Enqueued) && HasRow(work, run, before[run])
    }

    /** All others are as the scheduler returned them. */
    predicate Untouched(done: set<RunId>, before: map<RunId, S.Run>, runs: map<RunId, S.Run>) {
      forall run :: run in before && (run !in done || before[run].lane.owner != owner) ==>
        run in runs && runs[run] == before[run]
    }

    lemma HandledStays(done: set<RunId>, before: map<RunId, S.Run>, runs: map<RunId, S.Run>, a: W.Db, b: W.Db,
                       run: RunId, now: map<RunId, S.Run>)
      requires Handled(done, before, runs, a.work) && Untouched(done, before, runs) && V.Evolves(a, b)
      requires run in before && before[run].lane.owner == owner && run !in done
      requires run in runs && now == runs[run := runs[run].(status := S.Enqueued)] && HasRow(b.work, run, before[run])
      ensures Handled(done + {run}, before, now, b.work) && Untouched(done + {run}, before, now)
    {
      hide V.Evolves, HasRow;
      forall other | other in done && other in before && before[other].lane.owner == owner
        ensures HasRow(b.work, other, before[other])
      {
        RowStays(a, b, other, before[other]);
      }
    }

    lemma OthersAside(done: set<RunId>, before: map<RunId, S.Run>, runs: map<RunId, S.Run>, work: seq<W.Row>,
                      run: RunId)
      requires Handled(done, before, runs, work) && Untouched(done, before, runs)
      requires run in before && before[run].lane.owner != owner
      ensures Handled(done + {run}, before, runs, work) && Untouched(done + {run}, before, runs)
    {
      hide HasRow;
    }

    /**
     Every task whose time has come gets its run; then every ready run of an active task of the platform is
     dealt with: other relays' runs are left alone, and each of this relay's ends up enqueued, with its row.
     */
    method SubmitDue(platform: nat, now: Time)
        returns (ready: set<RunId>, ghost before: map<RunId, S.Run>, ghost swept: S.Tables)
      requires scheduler.Valid() && store.Valid()
      modifies scheduler, store
      ensures scheduler.Valid() && store.Valid() && V.Evolves(old(store.State()), store.State())
      ensures before == swept.runs
      ensures forall id :: L.TimeHasCome(old(scheduler.State()), id, platform, now) ==>
        L.Swept(old(scheduler.State()), swept, id)
      ensures forall run :: run in ready <==> IsListed(swept, run, platform)
      ensures forall run :: run in ready ==> run in before && before[run].status == S.ReadyRun
      ensures Handled(ready, before, scheduler.runs, store.work) && Untouched(ready, before, scheduler.runs)
    {
      hide V.Evolves, Handled, Untouched, S.Sweep, HasRow, MessageWorkStore.Valid, TaskScheduler.Valid,
        TaskScheduler.State, TaskScheduler.Selects, TaskScheduler.ReadyRuns, L.Swept, L.TimeHasCome,
        TaskScheduler.IsReady, IsListed;
      ghost var db := store.State();
      ghost var order;
      V.EvolvesReflexive(db);
      ready, order := scheduler.DueRuns(platform, now);
      before, swept := scheduler.runs, scheduler.State();
      SameRuns(before);
      ReadyFacts(ready, platform, store.work);
      var left := ready;
      ghost var done := {};
      while left != {}
        invariant scheduler.Valid() && store.Valid() && V.Evolves(db, store.State())
        invariant left !! done && left + done == ready
        invariant Handled(done, before, scheduler.runs, store.work) && Untouched(done, before, scheduler.runs)
        decreases |left|
      {
        var run :| run in left;
        StillReady(done, before, scheduler.runs, run);
        if scheduler.runs[run].lane.owner == owner {
          ghost var was, runs := store.State(), scheduler.runs;
          SubmitRun(run, now);
          V.EvolvesTransitive(db, was, store.State());
          HandledStays(done, before, runs, was, store.State(), run, scheduler.runs);
        } else {
          OthersAside(done, before, scheduler.runs, store.work, run);
        }
        left, done := left - {run}, done + {run};
      }
      assert done == ready;
    }

    lemma SameRuns(runs: map<RunId, S.Run>)
      requires runs == scheduler.runs
      ensures scheduler.State().runs == runs
    {
    }

    lemma ReadyFacts(ready: set<RunId>, platform: nat, work: seq<W.Row>)
      requires ready == scheduler.ReadyRuns(scheduler.State(), platform)
      ensures forall run :: run in ready ==> run in scheduler.runs && scheduler.runs[run].status == S.ReadyRun
      ensures forall run :: run in ready <==> IsListed(scheduler.State(), run, platform)
      ensures Handled({}, scheduler.runs, scheduler.runs, work) && Untouched({}, scheduler.runs, scheduler.runs)
    {
    }

    lemma StillReady(done: set<RunId>, before: map<RunId, S.Run>, runs: map<RunId, S.Run>, run: RunId)
      requires Untouched(done, before, runs) && run in before && run !in done
      ensures run in runs && runs[run] == before[run]
    {
    }
  }
}
