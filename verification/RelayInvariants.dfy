/** Every step of the relay is a legal use of the store, because of what the workers' tokens mean. */
module RelayInvariants {
  import opened Identities
  import opened WorkTable
  import opened WorkInvariants
  import opened CoordinatorInvariants
  import opened RowMoves
  import opened AgentEvents
  import opened Relay

  // ---- Tokens -----------------------------------------------------------------------------------

  predicate GoodToken(work: seq<Row>, t: Token, kind: WorkKind) {
    t.id < |work| && work[t.id].kind == kind && 0 < t.generation <= work[t.id].generation
  }

  /** A dispatcher that holds a live claim and has not marked it finds the row unmarked. */
  predicate GoodDispatcher(db: Db, d: Dispatcher) {
    && (!d.Idle? ==> GoodToken(db.work, d.token, Delivery))
    && (d.Holding? && Live(db, d.token) ==> !db.work[d.token.id].sendAttempted)
  }

  /** An intake worker with a live claim has not started its command; it appends only messages. */
  predicate GoodIntake(db: Db, k: IntakeWorker) {
    && (!k.Resting? ==> GoodToken(db.work, k.token, Intake))
    && (!k.Resting? && Live(db, k.token) ==> !CommandIs(db, k.token.id, Attempted))
    && (k.Appending? ==> k.token.id !in db.commands)
  }

  predicate DispatcherTokens(w: World) {
    && (forall d :: 0 <= d < |w.dispatchers| ==> GoodDispatcher(w.db, w.dispatchers[d]))
    && (forall d, e :: 0 <= d < e < |w.dispatchers| && !w.dispatchers[d].Idle? && !w.dispatchers[e].Idle? ==>
          w.dispatchers[d].token != w.dispatchers[e].token)
  }

  predicate IntakeTokens(w: World) {
    && (forall k :: 0 <= k < |w.intakeWorkers| ==> GoodIntake(w.db, w.intakeWorkers[k]))
    && (forall j, k ::
          0 <= j < k < |w.intakeWorkers| && !w.intakeWorkers[j].Resting? && !w.intakeWorkers[k].Resting? ==>
          w.intakeWorkers[j].token != w.intakeWorkers[k].token)
  }

  predicate WorldInv(w: World) {
    CoordinatorInv(w.db) && DispatcherTokens(w) && IntakeTokens(w)
  }

  // ---- Legality ---------------------------------------------------------------------------------

  lemma StepIsLegal(policy: Policy, w: World, step: Step, now: Time)
    requires WorldInv(w) && Enabled(w, step, now)
    ensures CallOf(w, step, now).Some? ==> LegalCall(w.db, Call(CallOf(w, step, now).value, now))
  {
    DispatcherStepIsLegal(w, step, now);
    IntakeStepIsLegal(w, step, now);
    hide WorldInv, Enabled, CallOf, LegalCall;
    if !step.DeliveryReject? && !step.DeliveryRelease? && !step.DeliveryMark? && !step.DeliverySettle? &&
       !step.DeliveryGiveUp? && !step.IntakeSettle? && !step.IntakeRetry? && !step.IntakeFail?
    {
      OtherStepIsLegal(w, step, now);
    }
  }

  lemma OtherStepIsLegal(w: World, step: Step, now: Time)
    requires Enabled(w, step, now)
    requires !step.DeliveryReject? && !step.DeliveryRelease? && !step.DeliveryMark? && !step.DeliverySettle? &&
             !step.DeliveryGiveUp? && !step.IntakeSettle? && !step.IntakeRetry? && !step.IntakeFail?
    ensures CallOf(w, step, now).Some? ==> LegalCall(w.db, Call(CallOf(w, step, now).value, now))
  {
    hide Projects, Claimable, InLog;
  }

  lemma DispatcherStepIsLegal(w: World, step: Step, now: Time)
    requires WorldInv(w) && Enabled(w, step, now)
    ensures step.DeliveryReject? || step.DeliveryRelease? || step.DeliveryMark? || step.DeliverySettle? ||
            step.DeliveryGiveUp? ==>
      CallOf(w, step, now).Some? && LegalCall(w.db, Call(CallOf(w, step, now).value, now))
  {
    hide TableInv, Disciplined, Projects, Claimable, InLog;
    if step.DeliveryReject? || step.DeliveryRelease? || step.DeliveryMark? || step.DeliverySettle? ||
      step.DeliveryGiveUp? {
      var dispatcher := w.dispatchers[step.d];
      assert GoodDispatcher(w.db, dispatcher);
      NotACommand(w.db, dispatcher.token.id);
    }
  }

  lemma DispatcherRow(w: World, d: nat)
    requires DispatcherTokens(w) && d < |w.dispatchers| && !w.dispatchers[d].Idle?
    ensures w.dispatchers[d].token.id < |w.db.work| && w.db.work[w.dispatchers[d].token.id].kind == Delivery
  {
    assert GoodDispatcher(w.db, w.dispatchers[d]);
  }

  lemma AppendedIsReady(db: Db, call: Call, after: Db, i: nat)
    requires Explained(db, call, after) && |db.work| <= i < |after.work|
    ensures Untouched(after.work[i])
  {
    assert Appended(call, after.work[i]);
  }

  lemma NotACommand(db: Db, id: nat)
    requires CoordinatorInv(db) && id < |db.work| && db.work[id].kind == Delivery
    ensures id !in db.commands
  {
    assert GoodCommands(db);
  }

  lemma IntakeRowIsUnmarked(db: Db, id: nat)
    requires CoordinatorInv(db) && id < |db.work| && db.work[id].kind == Intake
    ensures !db.work[id].sendAttempted
  {
    assert GoodSend(db.work[id]);
  }

  lemma IntakeStepIsLegal(w: World, step: Step, now: Time)
    requires WorldInv(w) && Enabled(w, step, now)
    ensures step.IntakeSettle? || step.IntakeRetry? || step.IntakeFail? ==>
      CallOf(w, step, now).Some? && LegalCall(w.db, Call(CallOf(w, step, now).value, now))
  {
    hide TableInv, Disciplined, Projects, Claimable, InLog;
    if step.IntakeSettle? || step.IntakeRetry? || step.IntakeFail? {
      var worker := w.intakeWorkers[step.k];
      assert GoodIntake(w.db, worker);
      IntakeRowIsUnmarked(w.db, worker.token.id);
    }
  }

  // ---- Preservation -----------------------------------------------------------------------------

  /** The op of a step, as a store call, with all that is known about its result. */
  lemma StepDb(policy: Policy, w: World, step: Step, now: Time)
    requires WorldInv(w) && Enabled(w, step, now)
    ensures CoordinatorInv(DbAfter(policy, w, step, now)) && Evolves(w.db, DbAfter(policy, w, step, now))
    ensures CallOf(w, step, now).Some? ==>
      Explained(w.db, Call(CallOf(w, step, now).value, now), DbAfter(policy, w, step, now))
  {
    StepIsLegal(policy, w, step, now);
    EvolvesReflexive(w.db);
    hide Enabled, CallOf, CoordinatorInv, Evolves, Explained, Apply, LegalCall;
    match CallOf(w, step, now) {
      case None =>
      case Some(op) =>
        LegalCallKeeps(policy, w.db, Call(op, now));
        LegalCallExplained(policy, w.db, Call(op, now));
    }
  }

  /** A call other than marking leaves an unmarked live claim unmarked. */
  lemma DispatcherKept(db: Db, after: Db, call: Call, d: Dispatcher)
    requires GoodDispatcher(db, d) && Evolves(db, after) && Explained(db, call, after)
    requires call.op.OpMarkSending? ==> !d.Holding? || call.op.token != d.token
    ensures GoodDispatcher(after, d)
  {
    if !d.Idle? {
      var id := d.token.id;
      assert Successor(db.work[id], after.work[id]);
      assert Caused(db, call, id, db.work[id], after.work[id]);
    }
  }

  lemma IntakeKept(db: Db, after: Db, call: Call, k: IntakeWorker)
    requires GoodIntake(db, k) && Evolves(db, after) && Explained(db, call, after)
    requires call.op.OpStartCommand? ==> k.Resting? || call.op.token != k.token
    ensures GoodIntake(after, k)
  {
    if !k.Resting? {
      var id := k.token.id;
      assert Successor(db.work[id], after.work[id]);
      assert id in db.commands ==> CommandCaused(db, call, id, db.commands[id], after.commands[id]);
    }
  }

  /** A step without a store transaction leaves the store as it was. */
  lemma NoCallNoChange(policy: Policy, w: World, step: Step, now: Time)
    requires Enabled(w, step, now)
    ensures CallOf(w, step, now).None? ==> DbAfter(policy, w, step, now) == w.db
  {
    hide Enabled, CallOf;
  }

  lemma MarkingCall(w: World, step: Step, now: Time)
    requires Enabled(w, step, now) && CallOf(w, step, now).Some?
    ensures CallOf(w, step, now).value.OpMarkSending? ==>
      step.DeliveryMark? && step.d < |w.dispatchers| && w.dispatchers[step.d].Holding? &&
      CallOf(w, step, now).value.token == w.dispatchers[step.d].token
    ensures CallOf(w, step, now).value.OpStartCommand? ==>
      step.IntakeStart? && step.k < |w.intakeWorkers| && w.intakeWorkers[step.k].Working? &&
      CallOf(w, step, now).value.token == w.intakeWorkers[step.k].token
  {
    hide Projects, Claimable, InLog;
  }

  lemma DispatcherAt(w: World, d: nat)
    requires WorldInv(w) && d < |w.dispatchers|
    ensures GoodDispatcher(w.db, w.dispatchers[d])
    ensures forall e :: 0 <= e < |w.dispatchers| && e != d && !w.dispatchers[d].Idle? && !w.dispatchers[e].Idle? ==>
      w.dispatchers[e].token != w.dispatchers[d].token
  {
    hide CoordinatorInv, GoodDispatcher;
  }

  lemma IntakeAt(w: World, k: nat)
    requires WorldInv(w) && k < |w.intakeWorkers|
    ensures GoodIntake(w.db, w.intakeWorkers[k])
    ensures forall j ::
      0 <= j < |w.intakeWorkers| && j != k && !w.intakeWorkers[k].Resting? && !w.intakeWorkers[j].Resting? ==>
      w.intakeWorkers[j].token != w.intakeWorkers[k].token
  {
    hide CoordinatorInv, GoodIntake;
  }

  lemma QuietDispatchers(policy: Policy, w: World, step: Step, now: Time, d: nat)
    requires WorldInv(w) && Enabled(w, step, now) && d < |w.dispatchers|
    requires step.DeliveryMark? ==> step.d != d
    ensures GoodDispatcher(DbAfter(policy, w, step, now), w.dispatchers[d])
  {
    hide WorldInv, CoordinatorInv, Evolves, Explained, Enabled, CallOf, DbAfter, GoodDispatcher;
    StepDb(policy, w, step, now);
    DispatcherAt(w, d);
    NoCallNoChange(policy, w, step, now);
    if CallOf(w, step, now).Some? {
      MarkingCall(w, step, now);
      DispatcherKept(w.db, DbAfter(policy, w, step, now), Call(CallOf(w, step, now).value, now), w.dispatchers[d]);
    }
  }

  lemma QuietIntake(policy: Policy, w: World, step: Step, now: Time, k: nat)
    requires WorldInv(w) && Enabled(w, step, now) && k < |w.intakeWorkers|
    requires step.IntakeStart? ==> step.k != k
    ensures GoodIntake(DbAfter(policy, w, step, now), w.intakeWorkers[k])
  {
    hide WorldInv, CoordinatorInv, Evolves, Explained, Enabled, CallOf, DbAfter, GoodIntake;
    StepDb(policy, w, step, now);
    IntakeAt(w, k);
    NoCallNoChange(policy, w, step, now);
    if CallOf(w, step, now).Some? {
      MarkingCall(w, step, now);
      IntakeKept(w.db, DbAfter(policy, w, step, now), Call(CallOf(w, step, now).value, now), w.intakeWorkers[k]);
    }
  }

  /** A freshly claimed delivery is unmarked; a freshly claimed command is not started. */
  lemma ClaimedRowIsFresh(policy: Policy, db: Db, id: nat, owner: nat, now: Time)
    requires Disciplined(db) && id < |db.work| && db.work[id].state == Ready
    ensures var after := Claim(policy, db, id, owner, now);
      var t := Token(id, db.work[id].generation + 1);
      && (db.work[id].kind == Delivery ==> GoodDispatcher(after, Holding(t)))
      && (db.work[id].kind == Intake ==> GoodIntake(after, Working(t)))
  {
    assert GoodSend(db.work[id]);
    assert id in db.commands ==> GoodCommand(db.work, id, db.commands[id]);
    hide Disciplined, HasReceipt;
  }

  lemma ClaimedDispatcher(policy: Policy, w: World, d: nat, id: nat, now: Time)
    requires WorldInv(w) && Enabled(w, DeliveryClaim(d, id), now)
    ensures GoodDispatcher(DbAfter(policy, w, DeliveryClaim(d, id), now), Holding(NewToken(w, id)))
  {
    hide TableInv, Disciplined, DispatcherTokens, IntakeTokens, GoodDispatcher, GoodIntake, Claim;
    assert id < |w.db.work| && w.db.work[id].state == Ready && w.db.work[id].kind == Delivery;
    ClaimedRowIsFresh(policy, w.db, id, d, now);
  }

  lemma ClaimedIntake(policy: Policy, w: World, k: nat, id: nat, now: Time)
    requires WorldInv(w) && Enabled(w, IntakeClaim(k, id), now)
    ensures GoodIntake(DbAfter(policy, w, IntakeClaim(k, id), now), Working(NewToken(w, id)))
  {
    hide TableInv, Disciplined, DispatcherTokens, IntakeTokens, GoodDispatcher, GoodIntake, Claim;
    assert id < |w.db.work| && w.db.work[id].state == Ready && w.db.work[id].kind == Intake;
    ClaimedRowIsFresh(policy, w.db, id, k, now);
  }

  /** A dispatcher that keeps its token through a step of its own. */
  lemma PassedDispatcher(policy: Policy, w: World, step: Step, now: Time, d: nat)
    requires WorldInv(w) && Enabled(w, step, now) && d < |w.dispatchers| && !step.DeliveryClaim?
    requires NextDispatchers(w, step, now)[d] != w.dispatchers[d] && !NextDispatchers(w, step, now)[d].Idle?
    ensures !w.dispatchers[d].Idle? && NextDispatchers(w, step, now)[d].token == w.dispatchers[d].token
    ensures GoodDispatcher(DbAfter(policy, w, step, now), NextDispatchers(w, step, now)[d])
  {
    hide WorldInv, Explained, CallOf, DbAfter, CoordinatorInv, Evolves, GoodDispatcher, Claimable, InLog;
    StepDb(policy, w, step, now);
    DispatcherAt(w, d);
    PassedToken(w.db, DbAfter(policy, w, step, now), w.dispatchers[d], NextDispatchers(w, step, now)[d]);
  }

  lemma AppendingToken(db: Db, k: IntakeWorker)
    requires GoodIntake(db, k) && k.Working? && k.token.id !in db.commands
    ensures GoodIntake(db, Appending(k.token))
  {
  }

  lemma PassedToken(a: Db, b: Db, d: Dispatcher, e: Dispatcher)
    requires GoodDispatcher(a, d) && Evolves(a, b) && !d.Idle? && !e.Idle? && !e.Holding? && e.token == d.token
    ensures GoodDispatcher(b, e)
  {
    assert Successor(a.work[d.token.id], b.work[d.token.id]);
  }

  lemma PassedIntake(policy: Policy, w: World, step: Step, now: Time, k: nat)
    requires WorldInv(w) && Enabled(w, step, now) && k < |w.intakeWorkers| && !step.IntakeClaim?
    requires NextIntakeWorkers(w, step, now)[k] != w.intakeWorkers[k] && !NextIntakeWorkers(w, step, now)[k].Resting?
    ensures !w.intakeWorkers[k].Resting? && NextIntakeWorkers(w, step, now)[k].token == w.intakeWorkers[k].token
    ensures GoodIntake(DbAfter(policy, w, step, now), NextIntakeWorkers(w, step, now)[k])
  {
    hide WorldInv, GoodIntake, Claimable, InLog;
    IntakeAt(w, k);
    AppendingToken(w.db, w.intakeWorkers[k]);
  }

  lemma NextParts(policy: Policy, w: World, step: Step, now: Time)
    requires Enabled(w, step, now)
    ensures var after := Next(policy, w, At(step, now));
      && after == Taken(policy, w, step, now)
      && after.db == DbAfter(policy, w, step, now)
      && after.dispatchers == NextDispatchers(w, step, now)
      && after.intakeWorkers == NextIntakeWorkers(w, step, now)
  {
    hide Enabled, DbAfter, NextDispatchers, NextIntakeWorkers, NextOperations, NextProjectors, NextLogs, NextFrontier,
      NextAppends;
  }

  lemma DispatcherTokensKeep(policy: Policy, w: World, step: Step, now: Time)
    requires WorldInv(w) && Enabled(w, step, now)
    ensures DispatcherTokens(Next(policy, w, At(step, now)))
  {
    hide WorldInv, GoodDispatcher, Enabled, Next, NextDispatchers, DbAfter;
    var after := Next(policy, w, At(step, now));
    NextParts(policy, w, step, now);
    SameCount(w, step, now);
    forall d | 0 <= d < |w.dispatchers|
      ensures GoodDispatcher(after.db, after.dispatchers[d])
      ensures TokenFrom(w, after.dispatchers[d], step, d)
    {
      NextDispatcherKeeps(policy, w, step, now, d);
    }
    DistinctTokens(w, after, step);
  }

  /** A dispatcher's token is the one it had, or the one this step claimed. */
  predicate TokenFrom(w: World, d: Dispatcher, step: Step, k: nat)
    requires k < |w.dispatchers|
  {
    !d.Idle? ==>
      (!w.dispatchers[k].Idle? && d.token == w.dispatchers[k].token) ||
      (step.DeliveryClaim? && step.d == k && d.token == NewToken(w, step.id))
  }

  lemma SameCount(w: World, step: Step, now: Time)
    requires Enabled(w, step, now)
    ensures |NextDispatchers(w, step, now)| == |w.dispatchers|
  {
    hide Claimable, InLog;
  }

  /** How one dispatcher comes out of a step. */
  lemma NextDispatcherShape(w: World, step: Step, now: Time, d: nat)
    requires Enabled(w, step, now) && d < |w.dispatchers|
    ensures |NextDispatchers(w, step, now)| == |w.dispatchers|
    ensures var next := NextDispatchers(w, step, now)[d];
      || (next == w.dispatchers[d] && (step.DeliveryMark? ==> step.d != d))
      || next.Idle?
      || (step.DeliveryClaim? && step.d == d && next == Holding(NewToken(w, step.id)))
      || (!step.DeliveryClaim? && next != w.dispatchers[d])
  {
    hide Claimable, InLog;
  }

  lemma NextDispatcherKeeps(policy: Policy, w: World, step: Step, now: Time, d: nat)
    requires WorldInv(w) && Enabled(w, step, now) && d < |w.dispatchers| == |NextDispatchers(w, step, now)|
    ensures GoodDispatcher(DbAfter(policy, w, step, now), NextDispatchers(w, step, now)[d])
    ensures TokenFrom(w, NextDispatchers(w, step, now)[d], step, d)
  {
    hide WorldInv, Enabled, NextDispatchers, DbAfter;
    NextDispatcherShape(w, step, now, d);
    var next := NextDispatchers(w, step, now)[d];
    if !next.Idle? {
      if next == w.dispatchers[d] && (step.DeliveryMark? ==> step.d != d) {
        QuietDispatchers(policy, w, step, now, d);
      } else if step.DeliveryClaim? {
        ClaimedDispatcher(policy, w, step.d, step.id, now);
      } else {
        PassedDispatcher(policy, w, step, now, d);
      }
    }
  }

  /** A claim's generation is new, so tokens stay distinct. */
  lemma DistinctTokens(w: World, after: World, step: Step)
    requires WorldInv(w) && |after.dispatchers| == |w.dispatchers|
    requires forall d :: 0 <= d < |w.dispatchers| ==>
      GoodDispatcher(after.db, after.dispatchers[d]) && TokenFrom(w, after.dispatchers[d], step, d)
    ensures DispatcherTokens(after)
  {
    hide CoordinatorInv, IntakeTokens;
    forall d, e | 0 <= d < e < |after.dispatchers| && !after.dispatchers[d].Idle? && !after.dispatchers[e].Idle?
      ensures after.dispatchers[d].token != after.dispatchers[e].token
    {
      assert TokenFrom(w, after.dispatchers[d], step, d) && TokenFrom(w, after.dispatchers[e], step, e);
      assert GoodDispatcher(w.db, w.dispatchers[d]) && GoodDispatcher(w.db, w.dispatchers[e]);
    }
  }

  lemma IntakeTokensKeep(policy: Policy, w: World, step: Step, now: Time)
    requires WorldInv(w) && Enabled(w, step, now)
    ensures IntakeTokens(Next(policy, w, At(step, now)))
  {
    hide WorldInv, GoodIntake, Enabled, Next, NextIntakeWorkers, DbAfter;
    var after := Next(policy, w, At(step, now));
    NextParts(policy, w, step, now);
    SameIntakeCount(w, step, now);
    forall k | 0 <= k < |w.intakeWorkers|
      ensures GoodIntake(after.db, after.intakeWorkers[k])
      ensures IntakeTokenFrom(w, after.intakeWorkers[k], step, k)
    {
      NextIntakeKeeps(policy, w, step, now, k);
    }
    DistinctIntakeTokens(w, after, step);
  }

  /** An intake worker's token is the one it had, or the one this step claimed. */
  predicate IntakeTokenFrom(w: World, worker: IntakeWorker, step: Step, k: nat)
    requires k < |w.intakeWorkers|
  {
    !worker.Resting? ==>
      (!w.intakeWorkers[k].Resting? && worker.token == w.intakeWorkers[k].token) ||
      (step.IntakeClaim? && step.k == k && worker.token == NewToken(w, step.id))
  }

  lemma SameIntakeCount(w: World, step: Step, now: Time)
    requires Enabled(w, step, now)
    ensures |NextIntakeWorkers(w, step, now)| == |w.intakeWorkers|
  {
    hide Claimable, InLog;
  }

  /** How one intake worker comes out of a step. */
  lemma NextIntakeShape(w: World, step: Step, now: Time, k: nat)
    requires Enabled(w, step, now) && k < |w.intakeWorkers|
    ensures |NextIntakeWorkers(w, step, now)| == |w.intakeWorkers|
    ensures var next := NextIntakeWorkers(w, step, now)[k];
      || (next == w.intakeWorkers[k] && (step.IntakeStart? ==> step.k != k))
      || next.Resting?
      || (step.IntakeClaim? && step.k == k && next == Working(NewToken(w, step.id)))
      || (!step.IntakeClaim? && next != w.intakeWorkers[k])
  {
    hide Claimable, InLog;
  }

  lemma NextIntakeKeeps(policy: Policy, w: World, step: Step, now: Time, k: nat)
    requires WorldInv(w) && Enabled(w, step, now) && k < |w.intakeWorkers| == |NextIntakeWorkers(w, step, now)|
    ensures GoodIntake(DbAfter(policy, w, step, now), NextIntakeWorkers(w, step, now)[k])
    ensures IntakeTokenFrom(w, NextIntakeWorkers(w, step, now)[k], step, k)
  {
    hide WorldInv, Enabled, NextIntakeWorkers, DbAfter;
    NextIntakeShape(w, step, now, k);
    var next := NextIntakeWorkers(w, step, now)[k];
    if !next.Resting? {
      if next == w.intakeWorkers[k] && (step.IntakeStart? ==> step.k != k) {
        QuietIntake(policy, w, step, now, k);
      } else if step.IntakeClaim? {
        ClaimedIntake(policy, w, step.k, step.id, now);
      } else {
        PassedIntake(policy, w, step, now, k);
      }
    }
  }

  lemma DistinctIntakeTokens(w: World, after: World, step: Step)
    requires WorldInv(w) && |after.intakeWorkers| == |w.intakeWorkers|
    requires forall k :: 0 <= k < |w.intakeWorkers| ==>
      GoodIntake(after.db, after.intakeWorkers[k]) && IntakeTokenFrom(w, after.intakeWorkers[k], step, k)
    ensures IntakeTokens(after)
  {
    hide CoordinatorInv, DispatcherTokens;
    forall j, k | 0 <= j < k < |after.intakeWorkers| && !after.intakeWorkers[j].Resting? &&
      !after.intakeWorkers[k].Resting?
      ensures after.intakeWorkers[j].token != after.intakeWorkers[k].token
    {
      assert IntakeTokenFrom(w, after.intakeWorkers[j], step, j) && IntakeTokenFrom(w, after.intakeWorkers[k], step, k);
      assert GoodIntake(w.db, w.intakeWorkers[j]) && GoodIntake(w.db, w.intakeWorkers[k]);
    }
  }

  lemma NextKeeps(policy: Policy, w: World, at: Occurrence)
    requires WorldInv(w)
    ensures WorldInv(Next(policy, w, at))
  {
    if Enabled(w, at.step, at.now) {
      StepDb(policy, w, at.step, at.now);
      DispatcherTokensKeep(policy, w, at.step, at.now);
      IntakeTokensKeep(policy, w, at.step, at.now);
    }
    hide CoordinatorInv, DispatcherTokens, IntakeTokens, Enabled, DbAfter;
  }

  lemma {:induction false} RunKeeps(policy: Policy, dispatchers: nat, intakeWorkers: nat, steps: seq<Occurrence>)
    ensures WorldInv(Run(policy, Initial(dispatchers, intakeWorkers), steps))
  {
    if steps != [] {
      RunKeeps(policy, dispatchers, intakeWorkers, steps[..|steps| - 1]);
      NextKeeps(policy, Run(policy, Initial(dispatchers, intakeWorkers), steps[..|steps| - 1]), steps[|steps| - 1]);
      hide WorldInv, Next;
    }
  }
}
