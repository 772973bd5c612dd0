/** Backoff arithmetic, and why claim/settle cycles end. */
module RetryBudget {
  import opened Identities
  import opened WorkTable
  import opened WorkInvariants

  // ---- Backoff ----------------------------------------------------------------------------------

  function Min(a: int, b: int): int {
    if a < b then a else b
  }

  /** The backoff without jitter. */
  function Delay(policy: Policy, attempts: nat): int {
    Backoff(policy, attempts) - policy.jitter(attempts)
  }

  lemma {:induction false} Power2Grows(m: nat, n: nat)
    requires m <= n
    ensures Power2(m) <= Power2(n)
  {
    if m < n {
      Power2Grows(m, n - 1);
    }
  }

  lemma TimesGrows(k: nat, a: nat, b: nat)
    requires a <= b
    ensures k * a <= k * b
  {
  }

  /** The delay lies between the base, or the cap if that is less, and the cap. */
  lemma DelayBounds(policy: Policy, attempts: nat)
    ensures Min(policy.base, policy.cap) <= Delay(policy, attempts) <= policy.cap
  {
    TimesGrows(policy.base, 1, Power2(if attempts > 0 then attempts - 1 else 0));
  }

  /** Later attempts never wait less. */
  lemma DelayGrows(policy: Policy, m: nat, n: nat)
    requires m <= n
    ensures Delay(policy, m) <= Delay(policy, n)
  {
    var a, b := if m > 0 then m - 1 else 0, if n > 0 then n - 1 else 0;
    Power2Grows(a, b);
    TimesGrows(policy.base, Power2(a), Power2(b));
  }

  /** The first retry waits the base and each later one twice as long as the one before, up to the cap. */
  lemma DelayDoubles(policy: Policy, n: nat)
    requires n > 0
    ensures Delay(policy, 1) == Min(policy.base, policy.cap)
    ensures Delay(policy, n + 1) == Min(2 * Delay(policy, n), policy.cap)
  {
    PowerStep(n);
    Distribute(policy.base, Power2(n - 1), Power2(n - 1));
    assert Power2(0) == 1;
    hide Power2;
  }

  /** How long the first n retries of a row wait in all. */
  function TotalDelay(policy: Policy, n: nat): int {
    if n == 0 then 0 else TotalDelay(policy, n - 1) + Delay(policy, n)
  }

  lemma {:induction false} TotalDelayCapped(policy: Policy, n: nat)
    ensures TotalDelay(policy, n) <= n * policy.cap
  {
    hide Delay, Power2;
    if n > 0 {
      TotalDelayCapped(policy, n - 1);
      DelayBounds(policy, n);
      Distribute(policy.cap, n - 1, 1);
    }
  }

  lemma {:induction false} TotalDelayDoubles(policy: Policy, n: nat)
    ensures TotalDelay(policy, n) <= policy.base * (Power2(n) - 1)
  {
    if n == 0 {
      hide Delay;
      assert Power2(0) == 1;
    } else {
      hide Delay, Power2;
      TotalDelayDoubles(policy, n - 1);
      DelayIsDoubled(policy, n);
      PowerStep(n);
      var p := Power2(n - 1);
      Distribute(policy.base, p - 1, p);
      assert TotalDelay(policy, n) <= policy.base * (p - 1) + policy.base * p;
      assert (p - 1) + p == Power2(n) - 1;
    }
  }

  /** n retries wait at most min(n * cap, base * (2^n - 1)) in all. */
  lemma TotalDelayBounds(policy: Policy, n: nat)
    ensures TotalDelay(policy, n) <= Min(n * policy.cap, policy.base * (Power2(n) - 1))
  {
    hide TotalDelay, Power2;
    TotalDelayCapped(policy, n);
    TotalDelayDoubles(policy, n);
  }

  lemma PowerStep(n: nat)
    requires n > 0
    ensures Power2(n) == 2 * Power2(n - 1)
  {
  }

  lemma DelayIsDoubled(policy: Policy, n: nat)
    requires n > 0
    ensures Delay(policy, n) <= policy.base * Power2(n - 1)
  {
  }

  lemma Distribute(k: int, a: int, b: int)
    ensures k * (a + b) == k * a + k * b
  {
  }

  predicate ClaimsNow(db: Db, call: Call) {
    call.op.OpClaim? && Claimable(db.work, call.op.kind, call.now, call.op.id)
  }

  // ---- Retries stay below the maximum -----------------------------------------------------------

  /** A row waits for a retry only while attempts remain. */
  predicate RetriesLeft(policy: Policy, work: seq<Row>) {
    forall i :: 0 <= i < |work| && work[i].state == RetryWait ==> work[i].attempts < policy.maxAttempts
  }

  lemma CompleteKeepsRetries(policy: Policy, db: Db, id: nat, result: CommandResult, agentControlled: bool, now: Time)
    requires id < |db.work| && RetriesLeft(policy, db.work)
    ensures RetriesLeft(policy, CompleteCommand(db, id, result, agentControlled, now).work)
  {
    hide FindSource, MaxSequence;
  }

  lemma {:induction false} ReconcileKeepsRetries(policy: Policy, db: Db, n: nat, now: Time)
    requires n <= |db.work| && RetriesLeft(policy, db.work)
    ensures RetriesLeft(policy, RejectStranded(db, n, now).work)
    ensures RetriesLeft(policy, ExpireCommands(db, n, now).work)
  {
    hide CompleteCommand, RetriesLeft;
    if n > 0 {
      ReconcileKeepsRetries(policy, db, n - 1, now);
      CompleteKeepsRetries(policy, RejectStranded(db, n - 1, now), n - 1, Rejected, false, now);
      CompleteKeepsRetries(policy, ExpireCommands(db, n - 1, now), n - 1, Unknown, false, now);
    }
  }

  lemma SweepKeepsRetries(policy: Policy, db: Db, now: Time)
    requires RetriesLeft(policy, db.work)
    ensures RetriesLeft(policy, Sweep(db, now).work)
  {
  }

  lemma SettleKeepsRetries(policy: Policy, db: Db, t: Token, outcome: Outcome, now: Time)
    requires RetriesLeft(policy, db.work)
    ensures RetriesLeft(policy, Settle(policy, db, t, outcome, now).work)
  {
    hide FindSource, MaxSequence, CompleteCommand, Backoff;
    if Live(db, t) { CompleteKeepsRetries(policy, db, t.id, Rejected, false, now); }
  }

  lemma FinishKeepsRetries(policy: Policy, db: Db, t: Token, result: CommandResult, agentControlled: bool, now: Time)
    requires RetriesLeft(policy, db.work)
    ensures RetriesLeft(policy, FinishCommand(db, t, result, agentControlled, now).work)
  {
    hide CompleteCommand, RetriesLeft;
    if t.id < |db.work| { CompleteKeepsRetries(policy, db, t.id, result, agentControlled, now); }
  }

  lemma ApplyKeepsRetries(policy: Policy, db: Db, call: Call)
    requires RetriesLeft(policy, db.work)
    ensures RetriesLeft(policy, Apply(policy, db, call).work)
  {
    hide FindSource, MaxSequence, Claimable, Reconcile, Settle, FinishCommand;
    match call.op
    case OpReconcile =>
      WholeReconcileKeepsRetries(policy, db, call.now);
    case OpSettle(t, outcome) =>
      SettleKeepsRetries(policy, db, t, outcome, call.now);
    case OpFinishCommand(t, result, agentControlled) =>
      FinishKeepsRetries(policy, db, t, result, agentControlled, call.now);
    case OpClaim(kind, id, _) =>
      ClaimableInTable(db.work, kind, call.now, id);
    case _ =>
  }

  lemma ClaimableInTable(work: seq<Row>, kind: Option<WorkKind>, now: Time, id: nat)
    ensures Claimable(work, kind, now, id) ==> id < |work| && work[id].state == Ready
  {
  }

  lemma WholeReconcileKeepsRetries(policy: Policy, db: Db, now: Time)
    requires RetriesLeft(policy, db.work)
    ensures RetriesLeft(policy, Reconcile(db, now).work)
  {
    hide RetriesLeft, Sweep;
    ReconcileKeepsRetries(policy, db, |db.work|, now);
    var rejected := RejectStranded(db, |db.work|, now);
    ReconcileKeepsRetries(policy, rejected, |rejected.work|, now);
    SweepKeepsRetries(policy, ExpireCommands(rejected, |rejected.work|, now), now);
  }

  /** In every reachable store a row in retry_wait has attempts left. */
  lemma {:induction false} RetryWaitHasAttemptsLeft(policy: Policy, calls: seq<Call>)
    ensures RetriesLeft(policy, Reached(policy, calls).work)
  {
    if calls != [] {
      hide RetriesLeft, Apply;
      RetryWaitHasAttemptsLeft(policy, calls[..|calls| - 1]);
      ApplyKeepsRetries(policy, Reached(policy, calls[..|calls| - 1]), calls[|calls| - 1]);
    }
  }

  // ---- A bound on claims ------------------------------------------------------------------------

  function Weight(policy: Policy): nat {
    if policy.maxAttempts > 0 then policy.maxAttempts else 1
  }

  /** How often this row can still be claimed. */
  function Budget(policy: Policy, r: Row): nat {
    var left := policy.maxAttempts - r.attempts;
    match r.state
    case Ready => if left > 0 then left else 1
    case RetryWait => if left > 0 then left else 1
    case Claimed => if left > 0 then left else 0
    case _ => 0
  }

  /** A command not yet finished will queue one receipt. */
  function RowBudget(policy: Policy, db: Db, i: nat): nat
    requires i < |db.work|
  {
    Budget(policy, db.work[i]) + (if i in db.commands && !db.commands[i].status.Finished? then Weight(policy) else 0)
  }

  function Potential(policy: Policy, db: Db, n: nat): nat
    requires n <= |db.work|
  {
    if n == 0 then 0 else Potential(policy, db, n - 1) + RowBudget(policy, db, n - 1)
  }

  lemma {:induction false} PotentialSame(policy: Policy, a: Db, b: Db, n: nat)
    requires n <= |a.work| && n <= |b.work|
    requires forall i :: 0 <= i < n ==> RowBudget(policy, b, i) == RowBudget(policy, a, i)
    ensures Potential(policy, b, n) == Potential(policy, a, n)
  {
    hide RowBudget;
    if n > 0 {
      PotentialSame(policy, a, b, n - 1);
    }
  }

  lemma {:induction false} PotentialMove(policy: Policy, a: Db, b: Db, n: nat, id: nat)
    requires id < n <= |a.work| && n <= |b.work|
    requires forall i :: 0 <= i < n && i != id ==> RowBudget(policy, b, i) == RowBudget(policy, a, i)
    ensures Potential(policy, b, n) - Potential(policy, a, n) == RowBudget(policy, b, id) - RowBudget(policy, a, id)
  {
    hide RowBudget;
    if id == n - 1 {
      PotentialSame(policy, a, b, n - 1);
    } else {
      PotentialMove(policy, a, b, n - 1, id);
    }
  }

  /** No claim, command attempt or stranded command is up for recovery. */
  predicate NothingExpires(db: Db, now: Time) {
    && (forall i :: 0 <= i < |db.work| && db.work[i].state == Claimed && db.work[i].claimUntil.Some? ==>
          now < db.work[i].claimUntil.value)
    && (forall i :: 0 <= i < |db.work| ==> !ExpiredCommand(db, i, now) && !StrandedCommand(db, i))
  }

  /** A call that accepts no work and hands no claim back. */
  predicate Quiet(db: Db, call: Call) {
    match call.op
    case OpAccept(_, _, _, _, _) => false
    case OpInsertDelivery(_, _, _, _) => false
    case OpRelease(_) => false
    case OpRequeue(_) => false
    case OpReconcile => NothingExpires(db, call.now)
    case _ => true
  }

  lemma PutPotential(policy: Policy, db: Db, id: nat, r: Row)
    requires id < |db.work|
    ensures Potential(policy, db.(work := db.work[id := r]), |db.work|) - Potential(policy, db, |db.work|) ==
      Budget(policy, r) - Budget(policy, db.work[id])
  {
    PotentialMove(policy, db, db.(work := db.work[id := r]), |db.work|, id);
    hide Potential, Budget;
  }

  lemma CompletePotential(policy: Policy, db: Db, id: nat, result: CommandResult, agentControlled: bool, now: Time)
    requires GoodCommands(db) && id in db.commands && !db.commands[id].status.Finished?
    ensures var after := CompleteCommand(db, id, result, agentControlled, now);
      Potential(policy, after, |after.work|) <= Potential(policy, db, |db.work|)
  {
    hide Potential, FindSource, MaxSequence;
    var after := CompleteCommand(db, id, result, agentControlled, now);
    if after != db {
      assert after.work[id] == CompletedRow(db.work[id]);
      assert Budget(policy, after.work[id]) == 0;
      forall i | 0 <= i < |db.work| && i != id ensures RowBudget(policy, after, i) == RowBudget(policy, db, i) {
        assert after.work[i] == db.work[i];
      }
      PotentialMove(policy, db, after, |db.work|, id);
      if |after.work| > |db.work| {
        PotentialLast(policy, after);
        assert RowBudget(policy, after, |db.work|) == Weight(policy);
      }
    }
  }

  lemma PotentialLast(policy: Policy, db: Db)
    requires |db.work| > 0
    ensures Potential(policy, db, |db.work|) ==
      Potential(policy, db, |db.work| - 1) + RowBudget(policy, db, |db.work| - 1)
  {
  }

  lemma {:induction false} QuietRecovery(db: Db, n: nat, now: Time)
    requires NothingExpires(db, now) && n <= |db.work|
    ensures RejectStranded(db, n, now) == db && ExpireCommands(db, n, now) == db
  {
    if n > 0 {
      QuietRecovery(db, n - 1, now);
      assert !ExpiredCommand(db, n - 1, now) && !StrandedCommand(db, n - 1);
      hide NothingExpires, CompleteCommand;
    }
  }

  lemma ReconcilePotential(policy: Policy, db: Db, now: Time)
    requires NothingExpires(db, now)
    ensures Potential(policy, Reconcile(db, now), |Reconcile(db, now).work|) == Potential(policy, db, |db.work|)
  {
    QuietRecovery(db, |db.work|, now);
    hide Potential, RejectStranded, ExpireCommands;
    var after := Sweep(db, now);
    forall i | 0 <= i < |db.work| ensures RowBudget(policy, after, i) == RowBudget(policy, db, i) {
      assert after.work[i] == SweptRow(db.work[i], now);
    }
    PotentialSame(policy, db, after, |db.work|);
  }

  lemma ClaimPotential(policy: Policy, db: Db, id: nat, owner: nat, now: Time)
    requires id < |db.work| && db.work[id].state == Ready
    ensures Potential(policy, Claim(policy, db, id, owner, now), |db.work|) == Potential(policy, db, |db.work|) - 1
  {
    PutPotential(policy, db, id, ClaimedRow(policy, db.work[id], owner, now));
    hide Potential;
  }

  lemma SettlePotential(policy: Policy, db: Db, t: Token, outcome: Outcome, now: Time)
    requires GoodCommands(db)
    ensures var after := Settle(policy, db, t, outcome, now);
      Potential(policy, after, |after.work|) <= Potential(policy, db, |db.work|)
  {
    hide Potential, CompleteCommand, Backoff, GoodCommands;
    if Live(db, t) {
      if RejectsPending(policy, db, t.id, outcome) {
        CompletePotential(policy, db, t.id, Rejected, false, now);
      } else {
        PutPotential(policy, db, t.id, SettledRow(policy, db.work[t.id], outcome, now));
      }
    }
  }

  lemma StartPotential(policy: Policy, db: Db, t: Token, now: Time, timeout: nat)
    ensures var after := StartCommand(db, t, now, timeout);
      Potential(policy, after, |after.work|) <= Potential(policy, db, |db.work|)
  {
    hide Potential;
    if Startable(db, t) {
      PotentialMove(policy, db, StartCommand(db, t, now, timeout), |db.work|, t.id);
    }
  }

  lemma DirectoryPotential(policy: Policy, db: Db, call: Call)
    requires call.op.OpResolveLane? || call.op.OpSetCursor? || call.op.OpPark? || call.op.OpUnpark?
    ensures var after := Apply(policy, db, call);
      Potential(policy, after, |after.work|) == Potential(policy, db, |db.work|)
  {
    hide Potential;
    PotentialSame(policy, db, Apply(policy, db, call), |db.work|);
  }

  lemma RowPotential(policy: Policy, db: Db, op: Op, now: Time)
    requires op.OpMarkSending? || op.OpSkip? || op.OpConfirm?
    ensures var after := Apply(policy, db, Call(op, now));
      Potential(policy, after, |after.work|) <= Potential(policy, db, |db.work|)
  {
    hide Potential;
    if op.OpMarkSending? {
      var t := op.token;
      if Live(db, t) { PutPotential(policy, db, t.id, db.work[t.id].(sendAttempted := true)); }
    } else if op.OpSkip? {
      if Blocked(db, op.id) { PutPotential(policy, db, op.id, db.work[op.id].(state := Skipped)); }
    } else if op.id < |db.work| && db.work[op.id].state == DeliveryUnknown {
      PutPotential(policy, db, op.id, db.work[op.id].(state := Done, externalId := op.ext));
    }
  }

  /** A quiet call never raises the potential, and a claim spends one unit of it. */
  lemma QuietCall(policy: Policy, db: Db, call: Call)
    requires TableInv(db) && Quiet(db, call)
    ensures var after := Apply(policy, db, call);
      Potential(policy, after, |after.work|) + (if ClaimsNow(db, call) then 1 else 0) <=
        Potential(policy, db, |db.work|)
  {
    assert GoodCommands(db);
    hide TableInv, Potential, GoodCommands, NothingExpires, Settle, StartCommand, FinishCommand, Reconcile, Claim,
      CompleteCommand;
    var now := call.now;
    match call.op
    case OpClaim(kind, id, owner) =>
      if ClaimsNow(db, call) {
        assert id < |db.work| && db.work[id].state == Ready;
        hide Claimable;
        ClaimPotential(policy, db, id, owner, now);
        ClaimSize(policy, db, id, owner, now);
      }
    case OpSettle(t, outcome) => SettlePotential(policy, db, t, outcome, now);
    case OpStartCommand(t, timeout) => StartPotential(policy, db, t, now, timeout);
    case OpFinishCommand(t, result, agentControlled) => FinishPotential(policy, db, t, result, agentControlled, now);
    case OpReconcile => ReconcilePotential(policy, db, now);
    case OpMarkSending(_) => RowPotential(policy, db, call.op, now);
    case OpSkip(_) => RowPotential(policy, db, call.op, now);
    case OpConfirm(_, _) => RowPotential(policy, db, call.op, now);
    case OpResolveLane(_, _) => DirectoryPotential(policy, db, call);
    case OpSetCursor(_, _) => DirectoryPotential(policy, db, call);
    case OpPark(_) => DirectoryPotential(policy, db, call);
    case OpUnpark(_) => DirectoryPotential(policy, db, call);
  }

  lemma ClaimSize(policy: Policy, db: Db, id: nat, owner: nat, now: Time)
    requires id < |db.work|
    ensures |Claim(policy, db, id, owner, now).work| == |db.work|
  {
  }

  lemma FinishPotential(policy: Policy, db: Db, t: Token, result: CommandResult, agentControlled: bool, now: Time)
    requires GoodCommands(db)
    ensures var after := FinishCommand(db, t, result, agentControlled, now);
      Potential(policy, after, |after.work|) <= Potential(policy, db, |db.work|)
  {
    hide Potential, CompleteCommand, GoodCommands;
    if Finishable(db, t, result) {
      CompletePotential(policy, db, t.id, result, agentControlled, now);
    }
  }

  // ---- Runs of calls ----------------------------------------------------------------------------

  function From(policy: Policy, db: Db, calls: seq<Call>): Db {
    if calls == [] then db
    else Apply(policy, From(policy, db, calls[..|calls| - 1]), calls[|calls| - 1])
  }

  function ClaimCount(policy: Policy, db: Db, calls: seq<Call>): nat {
    if calls == [] then 0
    else
      var before := calls[..|calls| - 1];
      ClaimCount(policy, db, before) + (if ClaimsNow(From(policy, db, before), calls[|calls| - 1]) then 1 else 0)
  }

  predicate QuietRun(policy: Policy, db: Db, calls: seq<Call>) {
    calls == [] ||
    (var before := calls[..|calls| - 1];
     QuietRun(policy, db, before) && Quiet(From(policy, db, before), calls[|calls| - 1]))
  }

  lemma {:induction false} FromKeeps(policy: Policy, db: Db, calls: seq<Call>)
    requires TableInv(db)
    ensures TableInv(From(policy, db, calls)) && Evolves(db, From(policy, db, calls))
  {
    hide TableInv, Evolves, Apply;
    EvolvesReflexive(db);
    if calls != [] {
      var before := From(policy, db, calls[..|calls| - 1]);
      FromKeeps(policy, db, calls[..|calls| - 1]);
      ApplyKeeps(policy, before, calls[|calls| - 1]);
      EvolvesTransitive(db, before, From(policy, db, calls));
    }
  }

  /**
   Without new work, expiries, releases or requeues, claim/settle cycles end: however the calls are
   interleaved, the claims they make are bounded by the potential the store starts with.
   */
  lemma {:induction false} ClaimsAreBounded(policy: Policy, db: Db, calls: seq<Call>)
    requires TableInv(db) && QuietRun(policy, db, calls)
    ensures var after := From(policy, db, calls);
      ClaimCount(policy, db, calls) + Potential(policy, after, |after.work|) <= Potential(policy, db, |db.work|)
  {
    hide TableInv, Evolves, Apply, Potential, Quiet, ClaimsNow;
    if calls != [] {
      var before := calls[..|calls| - 1];
      ClaimsAreBounded(policy, db, before);
      FromKeeps(policy, db, before);
      QuietCall(policy, From(policy, db, before), calls[|calls| - 1]);
    }
  }
}
