/**
 How long a ready head can be passed over. claimReady prefers the least (available_at, sequence), and
 a retried row moves behind every head that was already due, provided its backoff is positive.
 */
module ClaimFairness {
  import opened Identities
  import opened WorkTable
  import opened WorkInvariants
  import opened RetryBudget

  // ---- What a claim finds -------------------------------------------------------------------------

  /** The best due head among the first n rows, if there is one. */
  lemma {:induction false} BestHead(work: seq<Row>, kind: Option<WorkKind>, now: Time, n: nat)
      returns (best: Option<nat>)
    requires n <= |work|
    ensures best.None? ==> forall j :: 0 <= j < n ==> !DueHead(work, kind, now, j)
    ensures best.Some? ==> DueHead(work, kind, now, best.value)
    ensures best.Some? ==>
      forall j :: 0 <= j < n && DueHead(work, kind, now, j) ==>
        best.value < |work| && !Before(work[j], work[best.value])
  {
    if n == 0 {
      best := None;
    } else {
      best := BestHead(work, kind, now, n - 1);
      assert DueHead(work, kind, now, n - 1) || (best.Some? ==> best.value < |work|);
      if DueHead(work, kind, now, n - 1) && (best.None? || Before(work[n - 1], work[best.value])) {
        best := Some(n - 1);
      }
      hide DueHead;
    }
  }

  /** Some row can be claimed exactly when some head is due: blocked rows hide no head of another lane. */
  lemma ClaimableIffDue(work: seq<Row>, kind: Option<WorkKind>, now: Time)
    ensures (exists id :: 0 <= id < |work| && Claimable(work, kind, now, id)) <==>
            (exists id :: 0 <= id < |work| && DueHead(work, kind, now, id))
  {
    var best := BestHead(work, kind, now, |work|);
    if best.Some? {
      assert best.value < |work| && Claimable(work, kind, now, best.value);
    }
    hide DueHead, Before;
  }

  // ---- Who may overtake whom ----------------------------------------------------------------------

  /** Every retry the policy grants waits a positive time; a retry follows at least one claim. */
  predicate BacksOff(policy: Policy) {
    forall n :: 1 <= n < policy.maxAttempts ==> Backoff(policy, n) > 0
  }

  /** A call that hands no claim back: no release, no requeue, no expired claim. */
  predicate KeepsClaims(db: Db, call: Call) {
    && !call.op.OpRelease?
    && !call.op.OpRequeue?
    && (call.op.OpReconcile? ==>
          forall i :: 0 <= i < |db.work| && db.work[i].state == Claimed && db.work[i].claimUntil.Some? ==>
            call.now < db.work[i].claimUntil.value)
  }

  /** All calls happen at or after `since` and none hands a claim back. */
  predicate FairRun(policy: Policy, db: Db, calls: seq<Call>, since: Time) {
    calls == [] ||
    (var before := calls[..|calls| - 1];
     var last := calls[|calls| - 1];
     FairRun(policy, db, before, since) && since <= last.now && KeepsClaims(From(policy, db, before), last))
  }

  predicate ReadyAt(db: Db, h: nat) {
    h < |db.work| && db.work[h].state == Ready
  }

  /** Row h is ready, so not claimed, after every call. */
  predicate StaysReady(policy: Policy, db: Db, calls: seq<Call>, h: nat) {
    && ReadyAt(From(policy, db, calls), h)
    && (calls == [] || StaysReady(policy, db, calls[..|calls| - 1], h))
  }

  /** A claim that could have taken h and took j. */
  predicate Bypasses(db: Db, call: Call, h: nat, j: nat) {
    && ClaimsNow(db, call)
    && call.op.id == j
    && h < |db.work|
    && (call.op.kind == None || call.op.kind == Some(db.work[h].kind))
  }

  function BypassCount(policy: Policy, db: Db, calls: seq<Call>, h: nat, j: nat): nat {
    if calls == [] then 0
    else
      var before := calls[..|calls| - 1];
      BypassCount(policy, db, before, h, j) +
      (if Bypasses(From(policy, db, before), calls[|calls| - 1], h, j) then 1 else 0)
  }

  /** Row j was claimed before and cannot be claimed ahead of a head available since `at`. */
  predicate Behind(db: Db, j: nat, at: Time) {
    && j < |db.work| && db.work[j].attempts >= 1
    && (db.work[j].state == Ready || db.work[j].state == RetryWait ==> at < db.work[j].availableAt)
  }

  // ---- One call -----------------------------------------------------------------------------------

  lemma CompleteStaysBehind(db: Db, id: nat, result: CommandResult, agentControlled: bool, now: Time, j: nat, at: Time)
    requires id < |db.work| && Behind(db, j, at)
    ensures Behind(CompleteCommand(db, id, result, agentControlled, now), j, at)
  {
    hide FindSource, MaxSequence;
  }

  lemma {:induction false} RecoveryStaysBehind(db: Db, n: nat, now: Time, j: nat, at: Time)
    requires n <= |db.work| && Behind(db, j, at)
    ensures Behind(RejectStranded(db, n, now), j, at)
    ensures Behind(ExpireCommands(db, n, now), j, at)
  {
    hide CompleteCommand, Behind;
    if n > 0 {
      RecoveryStaysBehind(db, n - 1, now, j, at);
      CompleteStaysBehind(RejectStranded(db, n - 1, now), n - 1, Rejected, false, now, j, at);
      CompleteStaysBehind(ExpireCommands(db, n - 1, now), n - 1, Unknown, false, now, j, at);
    }
  }

  /** A row's claim is not expired. */
  predicate ClaimHolds(db: Db, j: nat, now: Time) {
    j < |db.work| && db.work[j].state == Claimed && db.work[j].claimUntil.Some? ==> now < db.work[j].claimUntil.value
  }

  lemma CompleteKeepsHold(db: Db, id: nat, result: CommandResult, agentControlled: bool, now: Time, j: nat)
    requires id < |db.work| && j < |db.work| && ClaimHolds(db, j, now)
    ensures ClaimHolds(CompleteCommand(db, id, result, agentControlled, now), j, now)
  {
    hide FindSource, MaxSequence;
  }

  lemma {:induction false} RecoveryKeepsHold(db: Db, n: nat, now: Time, j: nat)
    requires n <= |db.work| && j < |db.work| && ClaimHolds(db, j, now)
    ensures ClaimHolds(RejectStranded(db, n, now), j, now)
    ensures ClaimHolds(ExpireCommands(db, n, now), j, now)
  {
    hide CompleteCommand, ClaimHolds;
    if n > 0 {
      RecoveryKeepsHold(db, n - 1, now, j);
      CompleteKeepsHold(RejectStranded(db, n - 1, now), n - 1, Rejected, false, now, j);
      CompleteKeepsHold(ExpireCommands(db, n - 1, now), n - 1, Unknown, false, now, j);
    }
  }

  lemma SweepStaysBehind(db: Db, now: Time, j: nat, at: Time)
    requires Behind(db, j, at) && ClaimHolds(db, j, now)
    ensures Behind(Sweep(db, now), j, at)
  {
    assert Sweep(db, now).work[j] == SweptRow(db.work[j], now);
  }

  lemma ReconcileStaysBehind(db: Db, now: Time, j: nat, at: Time)
    requires Behind(db, j, at) && ClaimHolds(db, j, now)
    ensures Behind(Reconcile(db, now), j, at)
  {
    assert j < |db.work|;
    hide Behind, ClaimHolds, Sweep;
    RecoveryStaysBehind(db, |db.work|, now, j, at);
    RecoveryKeepsHold(db, |db.work|, now, j);
    var rejected := RejectStranded(db, |db.work|, now);
    RecoveryStaysBehind(rejected, |rejected.work|, now, j, at);
    RecoveryKeepsHold(rejected, |rejected.work|, now, j);
    SweepStaysBehind(ExpireCommands(rejected, |rejected.work|, now), now, j, at);
  }

  lemma SettleStaysBehind(policy: Policy, db: Db, t: Token, outcome: Outcome, now: Time, j: nat, at: Time)
    requires BacksOff(policy) && at <= now && Behind(db, j, at)
    ensures Behind(Settle(policy, db, t, outcome, now), j, at)
  {
    hide CompleteCommand, Backoff;
    if Live(db, t) {
      CompleteStaysBehind(db, t.id, Rejected, false, now, j, at);
    }
  }

  lemma FinishStaysBehind(db: Db, t: Token, result: CommandResult, agentControlled: bool, now: Time, j: nat, at: Time)
    requires Behind(db, j, at)
    ensures Behind(FinishCommand(db, t, result, agentControlled, now), j, at)
  {
    hide CompleteCommand, Behind;
    if Finishable(db, t, result) {
      CompleteStaysBehind(db, t.id, result, agentControlled, now, j, at);
    }
  }

  /** Once behind, always behind. */
  lemma CallStaysBehind(policy: Policy, db: Db, call: Call, j: nat, at: Time)
    requires BacksOff(policy) && at <= call.now && KeepsClaims(db, call) && Behind(db, j, at)
    ensures Behind(Apply(policy, db, call), j, at)
  {
    assert call.op.OpReconcile? ==> ClaimHolds(db, j, call.now);
    assert !call.op.OpRelease? && !call.op.OpRequeue?;
    hide FindSource, MaxSequence, Claimable, Reconcile, Settle, FinishCommand, BacksOff, KeepsClaims, Release, Requeue,
      ClaimHolds;
    match call.op
    case OpReconcile => ReconcileStaysBehind(db, call.now, j, at);
    case OpSettle(t, outcome) => SettleStaysBehind(policy, db, t, outcome, call.now, j, at);
    case OpFinishCommand(t, result, agentControlled) =>
      FinishStaysBehind(db, t, result, agentControlled, call.now, j, at);
    case OpClaim(kind, id, _) => ClaimableInTable(db.work, kind, call.now, id);
    case _ =>
  }

  lemma ClaimPutsBehind(policy: Policy, db: Db, call: Call, j: nat, at: Time)
    requires ClaimsNow(db, call) && call.op.id == j
    ensures Behind(Apply(policy, db, call), j, at)
  {
    ClaimableInTable(db.work, call.op.kind, call.now, j);
  }

  // ---- The waiting head ---------------------------------------------------------------------------

  lemma CompleteLeavesReady(db: Db, id: nat, result: CommandResult, agentControlled: bool, now: Time, h: nat)
    requires id < |db.work| && h < |db.work|
    ensures var after := CompleteCommand(db, id, result, agentControlled, now);
      after.work[h] == db.work[h] || after.work[h].state == Done
  {
    hide FindSource, MaxSequence;
  }

  lemma {:induction false} RecoveryLeavesReady(db: Db, n: nat, now: Time, h: nat)
    requires n <= |db.work| && h < |db.work|
    ensures RejectStranded(db, n, now).work[h] == db.work[h] || RejectStranded(db, n, now).work[h].state == Done
    ensures ExpireCommands(db, n, now).work[h] == db.work[h] || ExpireCommands(db, n, now).work[h].state == Done
  {
    hide CompleteCommand;
    if n > 0 {
      RecoveryLeavesReady(db, n - 1, now, h);
      CompleteLeavesReady(RejectStranded(db, n - 1, now), n - 1, Rejected, false, now, h);
      CompleteLeavesReady(ExpireCommands(db, n - 1, now), n - 1, Unknown, false, now, h);
    }
  }

  lemma ReconcileLeavesReady(db: Db, now: Time, h: nat)
    requires ReadyAt(db, h) && ReadyAt(Reconcile(db, now), h)
    ensures Reconcile(db, now).work[h] == db.work[h]
  {
    RecoveryLeavesReady(db, |db.work|, now, h);
    var rejected := RejectStranded(db, |db.work|, now);
    RecoveryLeavesReady(rejected, |rejected.work|, now, h);
    var expired := ExpireCommands(rejected, |rejected.work|, now);
    assert Sweep(expired, now).work[h] == SweptRow(expired.work[h], now);
    hide RejectStranded, ExpireCommands;
  }

  lemma SettleLeavesReady(policy: Policy, db: Db, t: Token, outcome: Outcome, now: Time, h: nat)
    requires ReadyAt(db, h)
    ensures h < |Settle(policy, db, t, outcome, now).work|
    ensures ReadyAt(Settle(policy, db, t, outcome, now), h) ==>
      Settle(policy, db, t, outcome, now).work[h] == db.work[h]
  {
    hide CompleteCommand, Backoff;
    if Live(db, t) {
      CompleteLeavesReady(db, t.id, Rejected, false, now, h);
    }
  }

  lemma FinishLeavesReady(db: Db, t: Token, result: CommandResult, agentControlled: bool, now: Time, h: nat)
    requires ReadyAt(db, h) && ReadyAt(FinishCommand(db, t, result, agentControlled, now), h)
    ensures FinishCommand(db, t, result, agentControlled, now).work[h] == db.work[h]
  {
    hide CompleteCommand;
    if Finishable(db, t, result) {
      CompleteLeavesReady(db, t.id, result, agentControlled, now, h);
    }
  }

  /** A call that leaves a ready row ready leaves the whole row as it is. */
  lemma CallLeavesReady(policy: Policy, db: Db, call: Call, h: nat)
    requires ReadyAt(db, h) && ReadyAt(Apply(policy, db, call), h) && KeepsClaims(db, call)
    ensures Apply(policy, db, call).work[h] == db.work[h]
  {
    hide FindSource, MaxSequence, Claimable, Reconcile, Settle, FinishCommand;
    match call.op
    case OpReconcile => ReconcileLeavesReady(db, call.now, h);
    case OpSettle(t, outcome) => SettleLeavesReady(policy, db, t, outcome, call.now, h);
    case OpFinishCommand(t, result, agentControlled) =>
      FinishLeavesReady(db, t, result, agentControlled, call.now, h);
    case OpClaim(kind, id, _) => ClaimableInTable(db.work, kind, call.now, id);
    case _ =>
  }

  lemma HeadStays(before: Db, after: Db, since: Time, h: nat)
    requires TableInv(after) && Evolves(before, after)
    requires DueHead(before.work, None, since, h) && after.work[h] == before.work[h]
    ensures DueHead(after.work, None, since, h)
  {
    forall i | 0 <= i < |after.work| && SameQueue(after.work[i], after.work[h]) &&
      after.work[i].sequence < after.work[h].sequence
      ensures Resolved(after.work[i])
    {
      assert i < h;
      assert Successor(before.work[i], after.work[i]);
    }
  }

  /** A row behind the head cannot be claimed past it. */
  lemma BehindCannotBypass(db: Db, call: Call, since: Time, h: nat, j: nat)
    requires DueHead(db.work, None, since, h) && since <= call.now && Behind(db, j, db.work[h].availableAt)
    ensures !Bypasses(db, call, h, j)
  {
    if Bypasses(db, call, h, j) {
      assert DueHead(db.work, call.op.kind, call.now, h);
      assert Before(db.work[h], db.work[j]);
      assert false;
    }
  }

  // ---- Runs -----------------------------------------------------------------------------------------

  lemma {:induction false} BypassInduction(policy: Policy, db: Db, calls: seq<Call>, since: Time, h: nat, j: nat)
    requires TableInv(db) && BacksOff(policy) && DueHead(db.work, None, since, h)
    requires FairRun(policy, db, calls, since) && StaysReady(policy, db, calls, h)
    ensures var after := From(policy, db, calls);
      && TableInv(after)
      && h < |after.work| && after.work[h] == db.work[h]
      && DueHead(after.work, None, since, h)
      && BypassCount(policy, db, calls, h, j) <= 1
      && (BypassCount(policy, db, calls, h, j) == 1 ==> Behind(after, j, db.work[h].availableAt))
  {
    hide TableInv, Evolves, Apply, DueHead, Behind, Bypasses, KeepsClaims, BacksOff;
    if calls != [] {
      var head := calls[..|calls| - 1];
      var last := calls[|calls| - 1];
      BypassInduction(policy, db, head, since, h, j);
      var before := From(policy, db, head);
      ApplyKeeps(policy, before, last);
      BypassStep(policy, before, last, since, h, j);
    }
  }

  lemma BypassStep(policy: Policy, db: Db, call: Call, since: Time, h: nat, j: nat)
    requires BacksOff(policy) && DueHead(db.work, None, since, h) && since <= call.now && KeepsClaims(db, call)
    requires TableInv(Apply(policy, db, call)) && Evolves(db, Apply(policy, db, call))
    requires ReadyAt(Apply(policy, db, call), h)
    ensures Apply(policy, db, call).work[h] == db.work[h]
    ensures DueHead(Apply(policy, db, call).work, None, since, h)
    ensures Behind(db, j, db.work[h].availableAt) ==>
      !Bypasses(db, call, h, j) && Behind(Apply(policy, db, call), j, db.work[h].availableAt)
    ensures Bypasses(db, call, h, j) ==> Behind(Apply(policy, db, call), j, db.work[h].availableAt)
  {
    assert ReadyAt(db, h) && db.work[h].availableAt <= since;
    hide TableInv, Evolves, Apply, DueHead, Behind, KeepsClaims, BacksOff, Claimable;
    CallLeavesReady(policy, db, call, h);
    HeadStays(db, Apply(policy, db, call), since, h);
    var at := db.work[h].availableAt;
    if Behind(db, j, at) {
      BehindCannotBypass(db, call, since, h, j);
      CallStaysBehind(policy, db, call, j, at);
    }
    if Bypasses(db, call, h, j) {
      ClaimPutsBehind(policy, db, call, j, at);
    }
  }

  /**
   While a due head stays ready, each other row is claimed past it at most once, whatever else the
   callers do and whatever work arrives, as long as no claim is handed back.
   */
  lemma BypassedAtMostOnce(policy: Policy, db: Db, calls: seq<Call>, since: Time, h: nat, j: nat)
    requires TableInv(db) && BacksOff(policy) && DueHead(db.work, None, since, h)
    requires FairRun(policy, db, calls, since) && StaysReady(policy, db, calls, h)
    ensures BypassCount(policy, db, calls, h, j) <= 1
  {
    BypassInduction(policy, db, calls, since, h, j);
  }

  // ---- Without a positive backoff -----------------------------------------------------------------

  const LANES := map[Chat(0) := Lane(0, 0), Chat(1) := Lane(0, 0)]

  const OPENING := [
    Call(OpResolveLane(Chat(0), Lane(0, 0)), 0),
    Call(OpResolveLane(Chat(1), Lane(0, 0)), 0),
    Call(OpInsertDelivery(Chat(0), EventKey(Agent(0), Chat(0)), Agent(0), Content(0)), 0)]

  /** A delivery as queued in its own lane. */
  function Queued(lane: LaneKey, now: Time): Row {
    Row(Delivery, EventKey(Agent(0), lane), lane, 1, Agent(0), Ready, now, None, None, 0, 0, false, None, Content(0))
  }

  /** The first lane's delivery after k claims that ran out. */
  function Worn(k: nat): Row {
    Queued(Chat(0), 0).(attempts := k, generation := 2 * k)
  }

  function Clock(policy: Policy, k: nat): nat {
    if k == 0 then 0 else Clock(policy, k - 1) + policy.ttl
  }

  /** A history that wears the first delivery out k times. */
  function Wearing(policy: Policy, k: nat): seq<Call> {
    if k == 0 then OPENING
    else
      Wearing(policy, k - 1) +
      [Call(OpClaim(Some(Delivery), 0, 0), Clock(policy, k - 1)), Call(OpReconcile, Clock(policy, k))]
  }

  /** Then the second lane's delivery arrives. */
  function Arrivals(policy: Policy, k: nat): seq<Call> {
    Wearing(policy, k) +
    [Call(OpInsertDelivery(Chat(1), EventKey(Agent(0), Chat(1)), Agent(0), Content(0)), Clock(policy, k))]
  }

  /** One failed attempt at the first delivery and the claim after it, all in one instant. */
  function Cycle(k: nat, now: Time): seq<Call> {
    [Call(OpClaim(Some(Delivery), 0, 0), now),
     Call(OpSettle(Token(0, 2 * k + 1), Retry), now),
     Call(OpReconcile, now),
     Call(OpClaim(Some(Delivery), 0, 0), now)]
  }

  function Alone(first: Row): Db {
    Db(LANES, [first], map[], map[])
  }

  function Backlog(first: Row, now: Time): Db {
    Db(LANES, [first, Queued(Chat(1), now)], map[], map[])
  }

  lemma OpeningReached(policy: Policy)
    ensures Reached(policy, OPENING) == Alone(Worn(0))
  {
    var c := OPENING;
    assert c[..1][..0] == [] && c[..2][..1] == c[..1] && c[..2] == c[..|c| - 1];
    assert Reached(policy, c[..1]) == Db(map[Chat(0) := Lane(0, 0)], [], map[], map[]);
    assert Reached(policy, c[..2]) == Db(LANES, [], map[], map[]);
  }

  lemma ReachedMore(policy: Policy, calls: seq<Call>, call: Call)
    ensures Reached(policy, calls + [call]) == Apply(policy, Reached(policy, calls), call)
  {
    assert (calls + [call])[..|calls|] == calls;
  }

  /** A claim that runs out costs an attempt and two generations and leaves the row where it queued. */
  lemma WearsOut(policy: Policy, k: nat, now: Time)
    requires now >= 0
    ensures var claimed := Alone(ClaimedRow(policy, Worn(k), 0, now));
      && Apply(policy, Alone(Worn(k)), Call(OpClaim(Some(Delivery), 0, 0), now)) == claimed
      && Reconcile(claimed, now + policy.ttl) == Alone(Worn(k + 1))
  {
    assert Claimable(Alone(Worn(k)).work, Some(Delivery), now, 0);
    var claimed := Alone(ClaimedRow(policy, Worn(k), 0, now));
    var at := now + policy.ttl;
    assert RejectStranded(claimed, 0, at) == claimed && RejectStranded(claimed, 1, at) == claimed;
    assert ExpireCommands(claimed, 0, at) == claimed && ExpireCommands(claimed, 1, at) == claimed;
    assert Sweep(claimed, at).work == [Worn(k + 1)];
  }

  lemma {:induction false} WearingReached(policy: Policy, k: nat)
    ensures Reached(policy, Wearing(policy, k)) == Alone(Worn(k))
  {
    hide Reached, Apply, Reconcile;
    if k == 0 {
      OpeningReached(policy);
    } else {
      var before, now := Wearing(policy, k - 1), Clock(policy, k - 1);
      var claim, sweep := Call(OpClaim(Some(Delivery), 0, 0), now), Call(OpReconcile, now + policy.ttl);
      WearingReached(policy, k - 1);
      WearsOut(policy, k - 1, now);
      assert Wearing(policy, k) == before + [claim] + [sweep];
      ReachedMore(policy, before, claim);
      ReachedMore(policy, before + [claim], sweep);
      ReconcileCall(policy, Alone(ClaimedRow(policy, Worn(k - 1), 0, now)), sweep);
    }
  }

  lemma ReconcileCall(policy: Policy, db: Db, call: Call)
    requires call.op.OpReconcile?
    ensures Apply(policy, db, call) == Reconcile(db, call.now)
  {
  }

  lemma ArrivalsReached(policy: Policy, k: nat)
    ensures Reached(policy, Arrivals(policy, k)) == Backlog(Worn(k), Clock(policy, k))
  {
    WearingReached(policy, k);
    hide Reached;
    ReachedMore(policy, Wearing(policy, k), Arrivals(policy, k)[|Wearing(policy, k)|]);
  }

  lemma RunStep(policy: Policy, db: Db, calls: seq<Call>, n: nat, h: nat, j: nat, since: Time)
    requires n < |calls|
    ensures From(policy, db, calls[..n + 1]) == Apply(policy, From(policy, db, calls[..n]), calls[n])
    ensures BypassCount(policy, db, calls[..n + 1], h, j) == BypassCount(policy, db, calls[..n], h, j) +
      (if Bypasses(From(policy, db, calls[..n]), calls[n], h, j) then 1 else 0)
    ensures StaysReady(policy, db, calls[..n + 1], h) <==>
      StaysReady(policy, db, calls[..n], h) && ReadyAt(From(policy, db, calls[..n + 1]), h)
    ensures FairRun(policy, db, calls[..n + 1], since) <==>
      FairRun(policy, db, calls[..n], since) && since <= calls[n].now &&
        KeepsClaims(From(policy, db, calls[..n]), calls[n])
  {
    assert calls[..n + 1][..n] == calls[..n];
    hide Apply, Bypasses, KeepsClaims, ReadyAt;
  }

  function Waited(policy: Policy, k: nat, now: Time): Row {
    SettledRow(policy, ClaimedRow(policy, Worn(k), 0, now), Retry, now)
  }

  /** The cycle takes the first row through claim, retry and reconcile at one instant, and claims it again. */
  lemma CycleStates(policy: Policy, k: nat, now: Time)
    requires k + 1 < policy.maxAttempts && Backoff(policy, k + 1) <= 0 && now >= 0
    ensures Waited(policy, k, now).state == RetryWait && Waited(policy, k, now).availableAt <= now
    ensures Waited(policy, k, now).lane == Chat(0)
    ensures Apply(policy, Backlog(Worn(k), now), Cycle(k, now)[0]) == Backlog(ClaimedRow(policy, Worn(k), 0, now), now)
    ensures Apply(policy, Backlog(ClaimedRow(policy, Worn(k), 0, now), now), Cycle(k, now)[1]) ==
      Backlog(Waited(policy, k, now), now)
    ensures Apply(policy, Backlog(Waited(policy, k, now), now), Cycle(k, now)[2]) ==
      Backlog(Waited(policy, k, now).(state := Ready), now)
    ensures Apply(policy, Backlog(Waited(policy, k, now).(state := Ready), now), Cycle(k, now)[3]) ==
      Backlog(ClaimedRow(policy, Waited(policy, k, now).(state := Ready), 0, now), now)
    ensures Bypasses(Backlog(Worn(k), now), Cycle(k, now)[0], 1, 0)
    ensures Bypasses(Backlog(Waited(policy, k, now).(state := Ready), now), Cycle(k, now)[3], 1, 0)
    ensures KeepsClaims(Backlog(Waited(policy, k, now), now), Cycle(k, now)[2])
  {
    hide Backoff, Reconcile;
    ClaimableFirst(Worn(k), now);
    ClaimableFirst(Waited(policy, k, now).(state := Ready), now);
    assert Live(Backlog(ClaimedRow(policy, Worn(k), 0, now), now), Token(0, 2 * k + 1));
    ReconcileBacklog(Waited(policy, k, now), now);
  }

  lemma ClaimableFirst(first: Row, now: Time)
    requires first.kind == Delivery && first.lane == Chat(0) && first.sequence == 1
    requires first.state == Ready && first.availableAt <= now
    ensures Claimable(Backlog(first, now).work, Some(Delivery), now, 0)
  {
  }

  lemma ReconcileBacklog(first: Row, now: Time)
    requires first.state == RetryWait && first.availableAt <= now
    ensures Reconcile(Backlog(first, now), now) == Backlog(first.(state := Ready), now)
  {
    var db := Backlog(first, now);
    assert RejectStranded(db, 0, now) == db && RejectStranded(db, 1, now) == db && RejectStranded(db, 2, now) == db;
    assert ExpireCommands(db, 0, now) == db && ExpireCommands(db, 1, now) == db && ExpireCommands(db, 2, now) == db;
    assert Sweep(db, now).work == [first.(state := Ready), Queued(Chat(1), now)];
  }

  /**
   The positive backoff is needed at every attempt a retry can follow: if one waits nothing, some
   reachable row that fails at that attempt is claimed twice past a head that is due all along.
   */
  lemma ZeroBackoffBypassesTwice(policy: Policy, k: nat)
    requires k + 1 < policy.maxAttempts && Backoff(policy, k + 1) <= 0
    ensures var db, now := Reached(policy, Arrivals(policy, k)), Clock(policy, k);
      && DueHead(db.work, None, now, 1)
      && FairRun(policy, db, Cycle(k, now), now)
      && StaysReady(policy, db, Cycle(k, now), 1)
      && BypassCount(policy, db, Cycle(k, now), 1, 0) == 2
  {
    hide Reached, Apply, Backoff, Waited, KeepsClaims, Bypasses, ReadyAt, From, BypassCount, FairRun, StaysReady,
      Arrivals, Clock;
    var now := Clock(policy, k);
    var calls := Cycle(k, now);
    ArrivalsReached(policy, k);
    CycleStates(policy, k, now);
    var db := Reached(policy, Arrivals(policy, k));
    EmptyCycle(policy, db, calls, now);
    assert calls[..4] == calls;
    RunStep(policy, db, calls, 0, 1, 0, now);
    RunStep(policy, db, calls, 1, 1, 0, now);
    RunStep(policy, db, calls, 2, 1, 0, now);
    RunStep(policy, db, calls, 3, 1, 0, now);
    BacklogFacts(Worn(k), k, now, 0);
    BacklogFacts(ClaimedRow(policy, Worn(k), 0, now), k, now, 1);
    BacklogFacts(Waited(policy, k, now), k, now, 2);
    BacklogFacts(Waited(policy, k, now).(state := Ready), k, now, 3);
    BacklogFacts(ClaimedRow(policy, Waited(policy, k, now).(state := Ready), 0, now), k, now, 0);
  }

  lemma EmptyCycle(policy: Policy, db: Db, calls: seq<Call>, since: Time)
    ensures From(policy, db, calls[..0]) == db && BypassCount(policy, db, calls[..0], 1, 0) == 0
    ensures FairRun(policy, db, calls[..0], since)
    ensures StaysReady(policy, db, calls[..0], 1) <==> ReadyAt(db, 1)
  {
    assert calls[..0] == [];
  }

  lemma BacklogFacts(first: Row, k: nat, now: Time, n: nat)
    requires n < 4 && first.lane == Chat(0)
    ensures ReadyAt(Backlog(first, now), 1)
    ensures n != 2 ==> KeepsClaims(Backlog(first, now), Cycle(k, now)[n])
    ensures n == 1 || n == 2 ==> !Bypasses(Backlog(first, now), Cycle(k, now)[n], 1, 0)
    ensures DueHead(Backlog(first, now).work, None, now, 1)
  {
  }

  // ---- Exactly when -------------------------------------------------------------------------------

  /** In a reached store, more calls that hand no claim back take j past a ready due head h more than once. */
  predicate PassedTwice(policy: Policy, history: seq<Call>, more: seq<Call>, since: Time, h: nat, j: nat) {
    var db := Reached(policy, history);
    && DueHead(db.work, None, since, h)
    && FairRun(policy, db, more, since)
    && StaysReady(policy, db, more, h)
    && BypassCount(policy, db, more, h, j) > 1
  }

  /**
   A ready due head is passed by each other row at most once, in every store any callers can reach and
   whatever they call from there, if and only if every retry the policy grants waits a positive time.
   */
  lemma BypassedAtMostOnceIff(policy: Policy)
    ensures (forall history, more, since, h, j :: !PassedTwice(policy, history, more, since, h, j)) <==>
      BacksOff(policy)
  {
    hide Reached, Backoff, BypassCount, FairRun, StaysReady, DueHead, Arrivals;
    if BacksOff(policy) {
      forall history, more, since, h, j ensures !PassedTwice(policy, history, more, since, h, j) {
        if PassedTwice(policy, history, more, since, h, j) {
          ReachedKeeps(policy, history);
          BypassedAtMostOnce(policy, Reached(policy, history), more, since, h, j);
        }
      }
    } else {
      var n :| 1 <= n < policy.maxAttempts && Backoff(policy, n) <= 0;
      ZeroBackoffBypassesTwice(policy, n - 1);
      var now := Clock(policy, n - 1);
      assert PassedTwice(policy, Arrivals(policy, n - 1), Cycle(n - 1, now), now, 1, 0);
    }
  }
}
