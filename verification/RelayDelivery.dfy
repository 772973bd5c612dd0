/** At-most-once sends and head-of-line order of the durable send marks, over every run. */
module RelayDelivery {
  import opened Identities
  import opened WorkTable
  import opened WorkInvariants
  import opened CoordinatorInvariants
  import opened RowMoves
  import opened Relay
  import opened RelayInvariants

  // ---- Runs -------------------------------------------------------------------------------------

  lemma {:induction false} RunFromKeeps(policy: Policy, start: World, steps: seq<Occurrence>)
    requires WorldInv(start)
    ensures WorldInv(Run(policy, start, steps)) && Evolves(start.db, Run(policy, start, steps).db)
  {
    EvolvesReflexive(start.db);
    if steps != [] {
      var before := Run(policy, start, steps[..|steps| - 1]);
      var at := steps[|steps| - 1];
      RunFromKeeps(policy, start, steps[..|steps| - 1]);
      NextKeeps(policy, before, at);
      NextEvolves(policy, before, at);
      hide WorldInv, Next, Evolves;
      EvolvesTransitive(start.db, before.db, Run(policy, start, steps).db);
    }
    hide WorldInv, Evolves;
  }

  lemma NextEvolves(policy: Policy, w: World, at: Occurrence)
    requires WorldInv(w)
    ensures Evolves(w.db, Next(policy, w, at).db)
  {
    EvolvesReflexive(w.db);
    if Enabled(w, at.step, at.now) {
      StepDb(policy, w, at.step, at.now);
    }
    hide WorldInv, Evolves, Enabled, DbAfter;
  }

  // ---- At most one send per requeue -------------------------------------------------------------

  function MarkBudget(w: World, id: nat): nat {
    w.requeues[id] + (if id < |w.db.work| && w.db.work[id].sendAttempted then 1 else 0)
  }

  /** Each send was marked first, and each mark but one was paid for by an operator's requeue. */
  ghost predicate SendsBounded(w: World) {
    forall id: nat ::
      && w.sends[id] + w.pendingSends[id] <= multiset(w.marks)[id] <= MarkBudget(w, id)
  }

  /** The marking worker's row was unmarked until now. */
  lemma MarkIsFirst(policy: Policy, w: World, step: Step, now: Time)
    requires WorldInv(w) && Enabled(w, step, now) && Marked(w, step, now).Some?
    ensures var t := Marked(w, step, now).value;
      && Live(w.db, t)
      && !w.db.work[t.id].sendAttempted
      && t.id < |DbAfter(policy, w, step, now).work|
      && DbAfter(policy, w, step, now).work[t.id].sendAttempted
  {
    assert GoodDispatcher(w.db, w.dispatchers[step.d]);
    hide CoordinatorInv, DispatcherTokens, IntakeTokens;
  }

  lemma MarksStay(policy: Policy, w: World, step: Step, now: Time, id: nat)
    requires WorldInv(w) && Enabled(w, step, now) && id < |w.db.work| && w.db.work[id].sendAttempted
    ensures id < |DbAfter(policy, w, step, now).work|
    ensures DbAfter(policy, w, step, now).work[id].sendAttempted || Requeued(w, step) == Some(id)
  {
    hide WorldInv, CoordinatorInv, DbAfter, Evolves, Explained, Enabled, CallOf;
    StepDb(policy, w, step, now);
    NoCallNoChange(policy, w, step, now);
    if CallOf(w, step, now).Some? {
      MarkKept(w.db, Call(CallOf(w, step, now).value, now), DbAfter(policy, w, step, now), id);
      RequeueCall(w, step, now);
    }
  }

  lemma MarkKept(db: Db, call: Call, after: Db, id: nat)
    requires Explained(db, call, after) && id < |db.work| && db.work[id].sendAttempted
    ensures id < |after.work| && (after.work[id].sendAttempted || (call.op == OpRequeue(id) && Blocked(db, id)))
  {
    assert Caused(db, call, id, db.work[id], after.work[id]);
  }

  lemma RequeueCall(w: World, step: Step, now: Time)
    requires Enabled(w, step, now) && CallOf(w, step, now).Some?
    ensures CallOf(w, step, now).value.OpRequeue? ==> step == RequeueWork(CallOf(w, step, now).value.id)
  {
    hide Projects, Claimable;
  }

  lemma BudgetStep(policy: Policy, w: World, step: Step, now: Time, id: nat)
    requires WorldInv(w) && Enabled(w, step, now)
    ensures MarkBudget(Taken(policy, w, step, now), id) >=
      MarkBudget(w, id) + (if IdOf(Marked(w, step, now)) == Some(id) then 1 else 0)
  {
    hide Taken, DbAfter, Enabled, WorldInv, Marked, Requeued;
    SendParts(policy, w, step, now);
    if Marked(w, step, now).Some? {
      MarkIsFirst(policy, w, step, now);
    }
    if id < |w.db.work| && w.db.work[id].sendAttempted {
      MarksStay(policy, w, step, now, id);
    }
  }

  lemma SendParts(policy: Policy, w: World, step: Step, now: Time)
    requires Enabled(w, step, now)
    ensures var after := Taken(policy, w, step, now);
      && after.db == DbAfter(policy, w, step, now)
      && after.requeues == Plus(w.requeues, Requeued(w, step))
      && after.marks == (if Marked(w, step, now).Some? then w.marks + [Marked(w, step, now).value.id] else w.marks)
      && after.sends == Plus(w.sends, Landed(w, step, now))
      && after.pendingSends == Minus(Plus(w.pendingSends, IdOf(Marked(w, step, now))), Landed(w, step, now))
  {
    hide DbAfter, Enabled, NextDispatchers, NextIntakeWorkers, NextProjectors, NextLogs, NextOperations, NextFrontier,
      NextAppends, Marked, Landed, Requeued, Plus, Minus;
  }

  lemma SendsBoundedKeeps(policy: Policy, w: World, at: Occurrence)
    requires WorldInv(w) && SendsBounded(w)
    ensures SendsBounded(Next(policy, w, at))
  {
    var after := Next(policy, w, at);
    if Enabled(w, at.step, at.now) {
      forall id: nat
        ensures after.sends[id] + after.pendingSends[id] <= multiset(after.marks)[id] <= MarkBudget(after, id)
      {
        BudgetStep(policy, w, at.step, at.now, id);
        assert w.sends[id] + w.pendingSends[id] <= multiset(w.marks)[id] <= MarkBudget(w, id);
        SendCounts(policy, w, at.step, at.now, id);
        hide WorldInv, Taken, Enabled, MarkBudget;
      }
      hide WorldInv, Taken, Enabled, MarkBudget;
    }
  }

  /** A landing takes one pending send; a mark adds one. */
  lemma SendCounts(policy: Policy, w: World, step: Step, now: Time, id: nat)
    requires Enabled(w, step, now)
    ensures var after := Taken(policy, w, step, now);
      var added := if IdOf(Marked(w, step, now)) == Some(id) then 1 else 0;
      && multiset(after.marks)[id] == multiset(w.marks)[id] + added
      && after.sends[id] + after.pendingSends[id] == w.sends[id] + w.pendingSends[id] + added
  {
    hide DbAfter, Enabled, Taken, Landed, Marked;
    LandedWasPending(w, step, now);
    SendParts(policy, w, step, now);
  }

  lemma LandedWasPending(w: World, step: Step, now: Time)
    requires Enabled(w, step, now)
    ensures Landed(w, step, now).Some? ==> Landed(w, step, now).value in w.pendingSends
  {
    hide Claimable;
  }

  lemma {:induction false} RunSendsBounded(policy: Policy, dispatchers: nat, intakeWorkers: nat, steps: seq<Occurrence>)
    ensures SendsBounded(Run(policy, Initial(dispatchers, intakeWorkers), steps))
  {
    if steps != [] {
      var prefix := steps[..|steps| - 1];
      RunSendsBounded(policy, dispatchers, intakeWorkers, prefix);
      RunKeeps(policy, dispatchers, intakeWorkers, prefix);
      SendsBoundedKeeps(policy, Run(policy, Initial(dispatchers, intakeWorkers), prefix), steps[|steps| - 1]);
      hide WorldInv, Next, SendsBounded;
    }
  }

  /** However many workers, stalls, crashes and expired claims: one send, plus one per requeue. */
  lemma AtMostOnce(policy: Policy, w: World, id: nat)
    requires Reachable(policy, w)
    ensures w.sends[id] <= 1 + w.requeues[id]
  {
    hide Run;
    var dispatchers, intakeWorkers, steps :| w == Run(policy, Initial(dispatchers, intakeWorkers), steps);
    RunSendsBounded(policy, dispatchers, intakeWorkers, steps);
  }

  /**
   A release gives the claim back: whatever else happened between claim and release, the row's
   attempt count is what it was before the claim, and nothing was marked or sent by the release.
   */
  lemma ReleaseIsUncounted(policy: Policy, w: World, d: nat, id: nat, claimed: Time, held: World, now: Time)
    requires Reachable(policy, w) && Enabled(w, DeliveryClaim(d, id), claimed)
    requires Continues(policy, Next(policy, w, At(DeliveryClaim(d, id), claimed)), held)
    requires Enabled(held, DeliveryRelease(d), now) && held.dispatchers[d].token == NewToken(w, id)
    requires Live(held.db, NewToken(w, id))
    ensures var after := Next(policy, held, At(DeliveryRelease(d), now));
      && id < |after.db.work|
      && after.db.work[id].state == Ready
      && after.db.work[id].attempts == w.db.work[id].attempts
      && !after.db.work[id].sendAttempted
      && after.marks == held.marks && after.sends == held.sends && after.pendingSends == held.pendingSends
  {
    hide Run, Next, Claim, WorldInv, Evolves, Enabled, Successor;
    var taken := Next(policy, w, At(DeliveryClaim(d, id), claimed));
    ReachableKeeps(policy, w);
    NextKeeps(policy, w, At(DeliveryClaim(d, id), claimed));
    ClaimStep(policy, w, d, id, claimed);
    var between :| held == Run(policy, taken, between);
    RunFromKeeps(policy, taken, between);
    ReleasesHolding(held, d, now);
    HeldRow(taken, held, d, id, NewToken(w, id));
    ReleaseStep(policy, held, d, now);
  }

  lemma ReleasesHolding(w: World, d: nat, now: Time)
    requires Enabled(w, DeliveryRelease(d), now)
    ensures d < |w.dispatchers| && w.dispatchers[d].Holding?
  {
  }

  lemma ReachableKeeps(policy: Policy, w: World)
    requires Reachable(policy, w)
    ensures WorldInv(w)
  {
    hide Run, WorldInv;
    var dispatchers, intakeWorkers, steps :| w == Run(policy, Initial(dispatchers, intakeWorkers), steps);
    RunKeeps(policy, dispatchers, intakeWorkers, steps);
  }

  /** While the claim lives, the claimed row's attempts stand and its send is not marked. */
  lemma HeldRow(taken: World, held: World, d: nat, id: nat, t: Token)
    requires WorldInv(held) && Evolves(taken.db, held.db) && id < |taken.db.work| && t.id == id
    requires taken.db.work[id].state == Claimed && taken.db.work[id].generation == t.generation
    requires d < |held.dispatchers| && held.dispatchers[d].Holding? && held.dispatchers[d].token == t &&
      Live(held.db, t)
    ensures held.db.work[id].attempts == taken.db.work[id].attempts && !held.db.work[id].sendAttempted
  {
    DispatcherAt(held, d);
    assert Successor(taken.db.work[id], held.db.work[id]);
    hide WorldInv, Evolves;
  }

  lemma ClaimStep(policy: Policy, w: World, d: nat, id: nat, now: Time)
    requires Enabled(w, DeliveryClaim(d, id), now)
    ensures id < |w.db.work| && NewToken(w, id) == Token(id, w.db.work[id].generation + 1)
    ensures var after := Next(policy, w, At(DeliveryClaim(d, id), now));
      && |after.db.work| == |w.db.work|
      && after.db.work[id].state == Claimed
      && after.db.work[id].attempts == w.db.work[id].attempts + 1
      && after.db.work[id].generation == w.db.work[id].generation + 1
  {
    assert id < |w.db.work| && w.db.work[id].state == Ready && d < |w.dispatchers|;
    hide Claimable;
  }

  lemma ReleaseStep(policy: Policy, held: World, d: nat, now: Time)
    requires Enabled(held, DeliveryRelease(d), now) && Live(held.db, held.dispatchers[d].token)
    ensures var after := Next(policy, held, At(DeliveryRelease(d), now));
      && after.db == Release(held.db, held.dispatchers[d].token, now)
      && after.marks == held.marks && after.sends == held.sends && after.pendingSends == held.pendingSends
  {
  }

  // ---- Order of the marks -----------------------------------------------------------------------

  /** Everything of its lane and kind before row id is done or skipped. */
  predicate Cleared(work: seq<Row>, id: nat)
    requires id < |work|
  {
    forall j :: 0 <= j < id && SameQueue(work[j], work[id]) ==> Resolved(work[j])
  }

  predicate MarksOrdered(work: seq<Row>, marks: seq<nat>) {
    && (forall k :: 0 <= k < |marks| ==> marks[k] < |work| && Cleared(work, marks[k]))
    && (forall k, m :: 0 <= k < m < |marks| && SameQueue(work[marks[k]], work[marks[m]]) ==> marks[k] <= marks[m])
  }

  predicate MarksInOrder(w: World) {
    MarksOrdered(w.db.work, w.marks)
  }

  lemma ClearedStays(a: Db, b: Db, id: nat)
    requires Evolves(a, b) && id < |a.work| && Cleared(a.work, id)
    ensures Cleared(b.work, id)
  {
    forall j | 0 <= j < id && SameQueue(b.work[j], b.work[id]) ensures Resolved(b.work[j]) {
      assert Successor(a.work[j], b.work[j]) && Successor(a.work[id], b.work[id]);
    }
  }

  lemma LiveIsCleared(db: Db, t: Token)
    requires TableInv(db) && Live(db, t)
    ensures Cleared(db.work, t.id)
  {
    forall j | 0 <= j < t.id && SameQueue(db.work[j], db.work[t.id]) ensures Resolved(db.work[j]) {
      assert HeadOfLine(db.work);
    }
  }

  lemma MarksOrderedStay(a: Db, b: Db, marks: seq<nat>)
    requires Evolves(a, b) && MarksOrdered(a.work, marks)
    ensures MarksOrdered(b.work, marks)
  {
    forall k | 0 <= k < |marks| ensures marks[k] < |b.work| && Cleared(b.work, marks[k]) {
      ClearedStays(a, b, marks[k]);
      hide Cleared, Evolves;
    }
    forall k, m | 0 <= k < m < |marks| && SameQueue(b.work[marks[k]], b.work[marks[m]]) ensures marks[k] <= marks[m] {
      assert Successor(a.work[marks[k]], b.work[marks[k]]) && Successor(a.work[marks[m]], b.work[marks[m]]);
      hide Cleared;
    }
  }

  lemma MarkOrdered(work: seq<Row>, marks: seq<nat>, id: nat)
    requires MarksOrdered(work, marks) && id < |work| && Cleared(work, id) && !Resolved(work[id])
    ensures MarksOrdered(work, marks + [id])
  {
    forall k | 0 <= k < |marks| && SameQueue(work[marks[k]], work[id]) ensures marks[k] <= id {
      assert Cleared(work, marks[k]);
    }
  }

  lemma MarksInOrderKeeps(policy: Policy, w: World, at: Occurrence)
    requires WorldInv(w) && MarksInOrder(w)
    ensures MarksInOrder(Next(policy, w, at))
  {
    if Enabled(w, at.step, at.now) {
      NextEvolves(policy, w, at);
      var marked := Marked(w, at.step, at.now);
      if marked.Some? {
        MarkIsFirst(policy, w, at.step, at.now);
        LiveIsCleared(w.db, marked.value);
        MarkOrdered(w.db.work, w.marks, marked.value.id);
      }
      hide WorldInv, Marked, Evolves, MarksOrdered, Enabled, DbAfter, Live;
      MarksOrderedStay(w.db, Next(policy, w, at).db, Next(policy, w, at).marks);
    }
  }

  lemma {:induction false} RunMarksInOrder(policy: Policy, dispatchers: nat, intakeWorkers: nat, steps: seq<Occurrence>)
    ensures MarksInOrder(Run(policy, Initial(dispatchers, intakeWorkers), steps))
  {
    if steps != [] {
      var prefix := steps[..|steps| - 1];
      RunMarksInOrder(policy, dispatchers, intakeWorkers, prefix);
      RunKeeps(policy, dispatchers, intakeWorkers, prefix);
      MarksInOrderKeeps(policy, Run(policy, Initial(dispatchers, intakeWorkers), prefix), steps[|steps| - 1]);
      hide WorldInv, Next, MarksInOrder;
    }
  }

  /**
   In one lane marks never go back, and a row has a mark only if every earlier row of its lane is
   done or skipped. This holds after every prefix of a run, so also at the moment of each mark.
   */
  lemma NoOvertaking(policy: Policy, w: World, k: nat, m: nat)
    requires Reachable(policy, w) && k < m < |w.marks|
    ensures var a, b := w.marks[k], w.marks[m];
      && a < |w.db.work| && b < |w.db.work|
      && (SameQueue(w.db.work[a], w.db.work[b]) ==> a <= b)
      && (forall j :: 0 <= j < b && SameQueue(w.db.work[j], w.db.work[b]) ==> Resolved(w.db.work[j]))
  {
    hide Run;
    var dispatchers, intakeWorkers, steps :| w == Run(policy, Initial(dispatchers, intakeWorkers), steps);
    RunMarksInOrder(policy, dispatchers, intakeWorkers, steps);
  }
}
