/** The condense command: issued at most once, finished exactly once, never rewound. */
module RelayCommands {
  import opened Identities
  import opened WorkTable
  import opened WorkInvariants
  import opened CoordinatorInvariants
  import opened RowMoves
  import opened Relay
  import opened RelayInvariants
  import opened RelayDelivery

  // ---- At most one request ----------------------------------------------------------------------

  function StartBudget(db: Db, id: nat): nat {
    if id in db.commands && db.commands[id].status != Pending then 1 else 0
  }

  /** Requests in flight or landed never outnumber starts, and only a started command had one. */
  ghost predicate CondensesBounded(w: World) {
    forall id: nat :: w.condenses[id] + w.pendingCondenses[id] <= w.starts[id] <= StartBudget(w.db, id)
  }

  lemma StartBudgetStep(policy: Policy, w: World, step: Step, now: Time, id: nat)
    requires WorldInv(w) && Enabled(w, step, now)
    ensures StartBudget(DbAfter(policy, w, step, now), id) >=
      StartBudget(w.db, id) + (if IdOf(Started(w, step, now)) == Some(id) then 1 else 0)
  {
    hide WorldInv, Enabled, StartBudget, Startable, CallOf, DbAfter;
    if step.IntakeStart? {
      IntakeStartDb(policy, w, step, now);
      StartIsCounted(w.db, w.intakeWorkers[step.k].token, now, step.timeout, id);
    } else {
      StepDb(policy, w, step, now);
      hide CoordinatorInv, Evolves, Explained;
      if CallOf(w, step, now).Some? {
        StartBudgetStays(w.db, Call(CallOf(w, step, now).value, now), DbAfter(policy, w, step, now), id);
      } else {
        NoCallNoChange(policy, w, step, now);
      }
    }
  }

  lemma IntakeStartDb(policy: Policy, w: World, step: Step, now: Time)
    requires Enabled(w, step, now) && step.IntakeStart?
    ensures step.k < |w.intakeWorkers| && w.intakeWorkers[step.k].Working?
    ensures DbAfter(policy, w, step, now) == StartCommand(w.db, w.intakeWorkers[step.k].token, now, step.timeout)
  {
    hide StartCommand;
  }

  lemma StartBudgetStays(db: Db, call: Call, after: Db, id: nat)
    requires Explained(db, call, after)
    ensures StartBudget(after, id) >= StartBudget(db, id)
  {
    if id in db.commands {
      assert CommandCaused(db, call, id, db.commands[id], after.commands[id]);
    }
  }

  lemma StartIsCounted(db: Db, t: Token, now: Time, timeout: nat, id: nat)
    ensures StartBudget(StartCommand(db, t, now, timeout), id) >=
      StartBudget(db, id) + (if Startable(db, t) && t.id == id then 1 else 0)
  {
  }

  lemma CondenseCounts(policy: Policy, w: World, step: Step, now: Time, id: nat)
    requires Enabled(w, step, now)
    ensures var after := Taken(policy, w, step, now);
      var added := if IdOf(Started(w, step, now)) == Some(id) then 1 else 0;
      && after.starts[id] == w.starts[id] + added
      && after.condenses[id] + after.pendingCondenses[id] == w.condenses[id] + w.pendingCondenses[id] + added
  {
    assert step.CondenseLands? ==> step.id in w.pendingCondenses;
    hide DbAfter, Enabled, NextDispatchers, NextIntakeWorkers, NextProjectors, NextLogs, NextOperations, NextFrontier,
      NextAppends;
  }

  lemma CondensesBoundedKeeps(policy: Policy, w: World, at: Occurrence)
    requires WorldInv(w) && CondensesBounded(w)
    ensures CondensesBounded(Next(policy, w, at))
  {
    if Enabled(w, at.step, at.now) {
      var after := Taken(policy, w, at.step, at.now);
      forall id: nat
        ensures after.condenses[id] + after.pendingCondenses[id] <= after.starts[id] <= StartBudget(after.db, id)
      {
        assert w.condenses[id] + w.pendingCondenses[id] <= w.starts[id] <= StartBudget(w.db, id);
        StartBudgetStep(policy, w, at.step, at.now, id);
        CondenseCounts(policy, w, at.step, at.now, id);
        hide WorldInv, Enabled, StartBudget;
      }
      hide WorldInv, Enabled, StartBudget, Taken;
    }
  }

  lemma {:induction false} RunCondensesBounded(policy: Policy, dispatchers: nat, intakeWorkers: nat,
                                               steps: seq<Occurrence>)
    ensures CondensesBounded(Run(policy, Initial(dispatchers, intakeWorkers), steps))
  {
    if steps != [] {
      var prefix := steps[..|steps| - 1];
      RunCondensesBounded(policy, dispatchers, intakeWorkers, prefix);
      RunKeeps(policy, dispatchers, intakeWorkers, prefix);
      CondensesBoundedKeeps(policy, Run(policy, Initial(dispatchers, intakeWorkers), prefix), steps[|steps| - 1]);
      hide WorldInv, Next, CondensesBounded;
    }
  }

  /** The non-idempotent request reaches the server at most once per command, retries and crashes included. */
  lemma CondensedAtMostOnce(policy: Policy, w: World, id: nat)
    requires Reachable(policy, w)
    ensures w.condenses[id] <= 1
  {
    hide Run;
    var dispatchers, intakeWorkers, steps :| w == Run(policy, Initial(dispatchers, intakeWorkers), steps);
    RunCondensesBounded(policy, dispatchers, intakeWorkers, steps);
  }

  // ---- One outcome ------------------------------------------------------------------------------

  /** Status never goes back to pending, and a finished command keeps its result. */
  predicate Advances(a: Db, b: Db) {
    forall id :: id in a.commands ==>
      && id in b.commands
      && (a.commands[id].status != Pending ==> b.commands[id].status != Pending)
      && (a.commands[id].status.Finished? ==> b.commands[id].status == a.commands[id].status)
  }

  lemma NextAdvances(policy: Policy, w: World, at: Occurrence)
    requires WorldInv(w)
    ensures Advances(w.db, Next(policy, w, at).db)
  {
    if Enabled(w, at.step, at.now) {
      StepDb(policy, w, at.step, at.now);
      hide WorldInv, Enabled, Explained, Evolves, CoordinatorInv, DbAfter, Advances;
      if CallOf(w, at.step, at.now).Some? {
        CallAdvances(w.db, Call(CallOf(w, at.step, at.now).value, at.now), DbAfter(policy, w, at.step, at.now));
      } else {
        NoCallNoChange(policy, w, at.step, at.now);
        NothingAdvances(w.db);
      }
    } else {
      NothingAdvances(w.db);
    }
    hide WorldInv, CoordinatorInv, Advances;
  }

  lemma NothingAdvances(db: Db)
    ensures Advances(db, db)
  {
  }

  lemma CallAdvances(db: Db, call: Call, after: Db)
    requires Explained(db, call, after)
    ensures Advances(db, after)
  {
    forall id | id in db.commands
      ensures id in after.commands && CommandCaused(db, call, id, db.commands[id], after.commands[id])
    {
    }
  }

  lemma {:induction false} RunAdvances(policy: Policy, start: World, steps: seq<Occurrence>)
    requires WorldInv(start)
    ensures Advances(start.db, Run(policy, start, steps).db)
  {
    if steps != [] {
      var prefix := steps[..|steps| - 1];
      RunAdvances(policy, start, prefix);
      RunFromKeeps(policy, start, prefix);
      NextAdvances(policy, Run(policy, start, prefix), steps[|steps| - 1]);
      hide WorldInv, Next, Evolves;
    }
  }

  /** In every continuation of a run the outcome of a finished command stands. */
  lemma OutcomeStands(policy: Policy, w: World, later: World, id: nat)
    requires Reachable(policy, w) && Continues(policy, w, later) && id in w.db.commands
    ensures id in later.db.commands
    ensures w.db.commands[id].status != Pending ==> later.db.commands[id].status != Pending
    ensures w.db.commands[id].status.Finished? ==> later.db.commands[id].status == w.db.commands[id].status
  {
    hide WorldInv, Run;
    var dispatchers, intakeWorkers, steps :| w == Run(policy, Initial(dispatchers, intakeWorkers), steps);
    var more :| later == Run(policy, w, more);
    RunKeeps(policy, dispatchers, intakeWorkers, steps);
    RunAdvances(policy, w, more);
  }

  /** Row j is the receipt of command id. */
  predicate IsReceipt(work: seq<Row>, j: nat, id: nat) {
    j < |work| && work[j].kind == Delivery && work[j].source == ReceiptKey(id)
  }

  /**
   A command is final exactly when its row is done, exactly when one receipt delivery exists; until
   then an attempted command's row stays claimed, under the attempt's own deadline.
   */
  lemma OneReceiptPerCommand(policy: Policy, w: World, id: nat)
    requires Reachable(policy, w) && id in w.db.commands
    ensures var db := w.db;
      && id < |db.work|
      && (db.commands[id].status.Finished? <==> db.work[id].state == Done)
      && (db.commands[id].status.Finished? <==> exists j :: IsReceipt(db.work, j, id))
      && (forall i, j :: IsReceipt(db.work, i, id) && IsReceipt(db.work, j, id) ==> i == j)
      && (db.commands[id].status == Attempted ==>
            db.work[id].state == Claimed && db.work[id].claimUntil == db.commands[id].deadline)
  {
    hide Run;
    var dispatchers, intakeWorkers, steps :| w == Run(policy, Initial(dispatchers, intakeWorkers), steps);
    RunKeeps(policy, dispatchers, intakeWorkers, steps);
    CommandMeans(w.db, id);
  }

  lemma CommandMeans(db: Db, id: nat)
    requires CoordinatorInv(db) && id in db.commands
    ensures id < |db.work|
    ensures db.commands[id].status.Finished? <==> db.work[id].state == Done
    ensures db.commands[id].status.Finished? <==> exists j :: IsReceipt(db.work, j, id)
    ensures forall i, j :: IsReceipt(db.work, i, id) && IsReceipt(db.work, j, id) ==> i == j
    ensures db.commands[id].status == Attempted ==>
            db.work[id].state == Claimed && db.work[id].claimUntil == db.commands[id].deadline
  {
    assert GoodCommand(db.work, id, db.commands[id]);
    assert UniqueSources(db.work);
    hide TableInv, GoodRows, GoodJournal;
    if HasReceipt(db.work, id) {
      var j :| 0 <= j < |db.work| && db.work[j].kind == Delivery && db.work[j].source == ReceiptKey(id);
      assert IsReceipt(db.work, j, id);
    }
  }
}
